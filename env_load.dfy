/** Loading a `.env` file (parse.go): every line of the form `KEY VALUE` sets an environment
    variable, in file order. The process environment is a map the loader updates. */
module EnvLoad {
  import opened GoTypes
  import opened GoStrings

  type Env = map<string, string>

  /** What `os.ReadFile` gave: the file's text, or the error reading it. */
  datatype ReadResult = FileRead(content: string) | ReadFailed(err: Error)

  /** The pairs `os.Setenv` accepts on Unix-like systems: a non-empty key without `=` or NUL, and a
      value without NUL. Any other pair is refused with an error and the environment stays as
      it was. */
  predicate SetenvAccepts(key: string, value: string)
  {
    key != "" && '=' !in key && '\0' !in key && '\0' !in value
  }

  /** `os.Setenv` on the environment map. */
  function Setenv(env: Env, key: string, value: string): (r: Env)
    ensures SetenvAccepts(key, value) ==> key in r && r[key] == value
    ensures !SetenvAccepts(key, value) ==> r == env
    ensures forall k :: k != key ==> (k in r <==> k in env)
    ensures forall k :: k in env && k != key ==> r[k] == env[k]
  {
    if SetenvAccepts(key, value) then env[key := value] else env
  }

  /** The entry one line contributes: the line must split on spaces into exactly two parts; the
      key is the first verbatim, the value the second with one trailing carriage return removed. */
  function ParseLine(line: string): (r: Option<(string, string)>)
    ensures r.Some? ==> ' ' !in r.value.0
  {
    var parts := Split(line, ' ');
    if |parts| != 2 then None else Some((parts[0], TrimSuffix(parts[1], "\r")))
  }

  /** A line contributes an entry exactly when it holds one space. */
  lemma ParseLineAccepts(line: string)
    ensures ParseLine(line).Some? <==> Count(line, ' ') == 1
  {
    SplitCount(line, ' ');
  }

  /** An accepted line is its key, one space and its value, with possibly one carriage return
      after it; neither key nor value contains a space. */
  lemma ParseLineShape(line: string)
    requires ParseLine(line).Some?
    ensures var (key, value) := ParseLine(line).value;
      && ' ' !in key && ' ' !in value
      && (line == key + " " + value || line == key + " " + value + "\r")
  {
    var parts := Split(line, ' ');
    JoinSplit(line, ' ');
    assert parts[1..] == [parts[1]];
    assert line == parts[0] + " " + parts[1];
    var value := TrimSuffix(parts[1], "\r");
    if HasSuffix(parts[1], "\r") {
      assert parts[1] == value + "\r";
      assert ' ' !in value by {
        forall i | 0 <= i < |value| ensures value[i] != ' ' { assert value[i] == parts[1][i]; }
      }
    }
  }

  /** Conversely, a key and a raw value without spaces, written with one space between them,
      give exactly that entry. */
  lemma ParseLineOf(key: string, raw: string)
    requires ' ' !in key && ' ' !in raw
    ensures ParseLine(key + " " + raw) == Some((key, TrimSuffix(raw, "\r")))
  {
    SplitJoin([key, raw], ' ');
    assert [key, raw][1..] == [raw];
    assert Join([key, raw], ' ') == key + " " + raw;
  }

  /** The entries of the lines, in line order. */
  function Entries(lines: seq<string>): seq<(string, string)>
  {
    if lines == [] then []
    else
      var last := lines[|lines| - 1];
      Entries(lines[..|lines| - 1]) + (if ParseLine(last).Some? then [ParseLine(last).value] else [])
  }

  /** The environment after setting each entry in turn. */
  function ApplyAll(env: Env, entries: seq<(string, string)>): Env
  {
    if entries == [] then env
    else
      var last := entries[|entries| - 1];
      Setenv(ApplyAll(env, entries[..|entries| - 1]), last.0, last.1)
  }

  /** `Load`: a failed read returns its error and sets nothing; otherwise every line is tried in
      order and the call returns no error, whatever the content. */
  method Load(read: ReadResult, env: Env) returns (env': Env, err: Option<Error>)
    ensures read.ReadFailed? ==> err == Some(read.err) && env' == env
    ensures read.FileRead? ==> err == None && env' == ApplyAll(env, Entries(Split(read.content, '\n')))
  {
    if read.ReadFailed? {
      return env, Some(read.err);
    }
    var lines := Split(read.content, '\n');
    env' := env;
    var i := 0;
    while i < |lines|
      invariant 0 <= i <= |lines|
      invariant env' == ApplyAll(env, Entries(lines[..i]))
    {
      var line := lines[i];
      EntriesStep(lines, i);
      var splits := Split(line, ' ');
      assert ParseLine(line) == if |splits| != 2 then None else Some((splits[0], TrimSuffix(splits[1], "\r")));
      if |splits| != 2 {
        assert Entries(lines[..i + 1]) == Entries(lines[..i]) + [];
        assert Entries(lines[..i]) + [] == Entries(lines[..i]);
        i := i + 1;
        continue;
      }
      assert Entries(lines[..i + 1]) == Entries(lines[..i]) + [(splits[0], TrimSuffix(splits[1], "\r"))];
      ApplyAllStep(env, Entries(lines[..i]), (splits[0], TrimSuffix(splits[1], "\r")));
      env' := Setenv(env', splits[0], TrimSuffix(splits[1], "\r"));
      i := i + 1;
    }
    assert lines[..|lines|] == lines;
    err := None;
  }

  /** One more line adds that line's entry, if any, at the end. */
  lemma EntriesStep(lines: seq<string>, i: nat)
    requires i < |lines|
    ensures Entries(lines[..i + 1])
         == Entries(lines[..i]) + (if ParseLine(lines[i]).Some? then [ParseLine(lines[i]).value] else [])
  {
    assert lines[..i + 1][..i] == lines[..i];
  }

  /** One more entry is one more `Setenv`. */
  lemma ApplyAllStep(env: Env, entries: seq<(string, string)>, entry: (string, string))
    ensures ApplyAll(env, entries + [entry]) == Setenv(ApplyAll(env, entries), entry.0, entry.1)
  {
    assert (entries + [entry])[..|entries|] == entries;
  }

  /** Lines contribute their entries independently of each other. */
  lemma {:induction false} EntriesAppend(xs: seq<string>, ys: seq<string>)
    ensures Entries(xs + ys) == Entries(xs) + Entries(ys)
    decreases |ys|
  {
    if ys != [] {
      var ys' := ys[..|ys| - 1];
      assert (xs + ys)[..|xs + ys| - 1] == xs + ys';
      EntriesAppend(xs, ys');
    } else {
      assert xs + ys == xs;
    }
  }

  /** Setting two batches of entries is setting the first and then the second. */
  lemma {:induction false} ApplyAllAppend(env: Env, xs: seq<(string, string)>, ys: seq<(string, string)>)
    ensures ApplyAll(env, xs + ys) == ApplyAll(ApplyAll(env, xs), ys)
    decreases |ys|
  {
    if ys != [] {
      var ys' := ys[..|ys| - 1];
      assert (xs + ys)[..|xs + ys| - 1] == xs + ys';
      ApplyAllAppend(env, xs, ys');
    } else {
      assert xs + ys == xs;
    }
  }

  /** A variable that no accepted entry names keeps its value, or stays unset. */
  lemma {:induction false} ApplyAllUnmentioned(env: Env, entries: seq<(string, string)>, key: string)
    requires forall i :: 0 <= i < |entries| && entries[i].0 == key ==> !SetenvAccepts(key, entries[i].1)
    ensures key in ApplyAll(env, entries) <==> key in env
    ensures key in env ==> ApplyAll(env, entries)[key] == env[key]
  {
    if entries != [] {
      ApplyAllUnmentioned(env, entries[..|entries| - 1], key);
    }
  }

  /** The last accepted entry for a key decides its value. */
  lemma {:induction false} ApplyAllLastWins(env: Env, entries: seq<(string, string)>, i: nat)
    requires i < |entries| && SetenvAccepts(entries[i].0, entries[i].1)
    requires forall j :: i < j < |entries| && entries[j].0 == entries[i].0 ==> !SetenvAccepts(entries[j].0, entries[j].1)
    ensures entries[i].0 in ApplyAll(env, entries)
    ensures ApplyAll(env, entries)[entries[i].0] == entries[i].1
  {
    var (key, value) := entries[i];
    var front, back := entries[..i + 1], entries[i + 1..];
    assert entries == front + back;
    ApplyAllAppend(env, front, back);
    assert front[..i] == entries[..i];
    assert ApplyAll(env, front) == Setenv(ApplyAll(env, entries[..i]), key, value);
    assert forall j :: 0 <= j < |back| && back[j].0 == key ==> !SetenvAccepts(key, back[j].1) by {
      forall j | 0 <= j < |back| && back[j].0 == key ensures !SetenvAccepts(key, back[j].1) {
        assert back[j] == entries[i + 1 + j];
      }
    }
    ApplyAllUnmentioned(ApplyAll(env, front), back, key);
  }

  /** In terms of lines: the last line that sets a key and that `os.Setenv` accepts decides the
      variable's value after loading, whatever the earlier lines said. */
  lemma LoadLastLineWins(env: Env, lines: seq<string>, i: nat, key: string, value: string)
    requires i < |lines| && ParseLine(lines[i]) == Some((key, value)) && SetenvAccepts(key, value)
    requires forall j :: i < j < |lines| && ParseLine(lines[j]).Some? && ParseLine(lines[j]).value.0 == key ==>
               !SetenvAccepts(key, ParseLine(lines[j]).value.1)
    ensures key in ApplyAll(env, Entries(lines)) && ApplyAll(env, Entries(lines))[key] == value
  {
    var front, back := lines[..i + 1], lines[i + 1..];
    assert lines == front + back;
    EntriesAppend(front, back);
    assert front[..i] == lines[..i];
    var es := Entries(lines);
    var n := |Entries(front)| - 1;
    assert es[n] == (key, value);
    LaterEntriesFromLaterLines(back, key);
    forall j | n < j < |es| && es[j].0 == key ensures !SetenvAccepts(es[j].0, es[j].1) {
      assert es[j] == Entries(back)[j - n - 1];
    }
    ApplyAllLastWins(env, es, n);
  }

  /** Every entry comes from some line, so a key no line sets with an accepted value is never set
      with an accepted value by the entries either. */
  lemma {:induction false} LaterEntriesFromLaterLines(lines: seq<string>, key: string)
    requires forall j :: 0 <= j < |lines| && ParseLine(lines[j]).Some? && ParseLine(lines[j]).value.0 == key ==>
               !SetenvAccepts(key, ParseLine(lines[j]).value.1)
    ensures forall j :: 0 <= j < |Entries(lines)| && Entries(lines)[j].0 == key ==> !SetenvAccepts(key, Entries(lines)[j].1)
  {
    if lines != [] {
      var init := lines[..|lines| - 1];
      LaterEntriesFromLaterLines(init, key);
    }
  }
}
