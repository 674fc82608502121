/** The start-up switch (Assets/Scripts/Utils/NetworkCommandLine.cs): outside
    the editor, the APP_MODE environment variable, or failing that a
    `-mode` command-line argument, chooses whether this process starts as
    a server, a host or a client. */
module CommandLine {
  import opened Wrappers

  /** Lower-casing, for ASCII letters only. */
  function LowerChar(c: char): char {
    if 'A' <= c <= 'Z' then (c as int + 32) as char else c
  }

  function Lower(s: string): string {
    seq(|s|, i requires 0 <= i < |s| => LowerChar(s[i]))
  }

  predicate IsLower(s: string) {
    forall i :: 0 <= i < |s| ==> !('A' <= s[i] <= 'Z')
  }

  /** Lower-casing yields a lower-case string of the same length, changes
      nothing that is already lower-case, and keeps a leading dash. */
  lemma LowerFacts(s: string)
    ensures |Lower(s)| == |s| && IsLower(Lower(s))
    ensures Lower(Lower(s)) == Lower(s)
    ensures IsLower(s) ==> Lower(s) == s
    ensures StartsWithDash(Lower(s)) <==> StartsWithDash(s)
  {
    assert forall i :: 0 <= i < |s| ==> LowerChar(LowerChar(s[i])) == LowerChar(s[i]);
  }

  predicate StartsWithDash(s: string) {
    |s| > 0 && s[0] == '-'
  }

  /** Argument `j` is a flag: it starts with a dash. */
  predicate Dashed(args: seq<string>, j: int)
    requires 0 <= j < |args|
  {
    StartsWithDash(Lower(args[j]))
  }

  /** The dictionary key a flag is stored under. */
  function KeyAt(args: seq<string>, j: int): string
    requires 0 <= j < |args|
  {
    Lower(args[j])
  }

  /** The value recorded for the flag at `i`: the next argument,
      lower-cased, unless there is none or it is itself a flag. */
  function ValueAt(args: seq<string>, i: int): (v: Option<string>)
    requires 0 <= i < |args|
    ensures v.Some? <==> i < |args| - 1 && !StartsWithDash(args[i + 1])
    ensures v.Some? ==> v.value == Lower(args[i + 1]) && IsLower(v.value)
  {
    if i < |args| - 1 && !StartsWithDash(args[i + 1]) then
      LowerFacts(args[i + 1]);
      Some(Lower(args[i + 1]))
    else None
  }

  /** The outcome of building the argument dictionary: adding a key that is
      already present throws. */
  datatype ParseResult =
    | Parsed(dict: map<string, Option<string>>)
    | DuplicateKey(key: string)

  /** The dictionary built from argument `i` on, starting from `m`. */
  function ParseFrom(args: seq<string>, i: nat, m: map<string, Option<string>>): ParseResult
    requires i <= |args|
    decreases |args| - i
  {
    if i == |args| then Parsed(m)
    else if !Dashed(args, i) then ParseFrom(args, i + 1, m)
    else if KeyAt(args, i) in m then DuplicateKey(KeyAt(args, i))
    else ParseFrom(args, i + 1, m[KeyAt(args, i) := ValueAt(args, i)])
  }

  function Parse(args: seq<string>): ParseResult {
    ParseFrom(args, 0, map[])
  }

  /** No two flags from `i` on lower-case to the same key. */
  predicate DistinctFrom(args: seq<string>, i: nat) {
    forall j, k :: i <= j < k < |args| && Dashed(args, j) && Dashed(args, k) ==> KeyAt(args, j) != KeyAt(args, k)
  }

  /** No flag from `i` on lower-cases to a key of `m`. */
  predicate FreshFrom(args: seq<string>, i: nat, m: map<string, Option<string>>) {
    forall j :: i <= j < |args| && Dashed(args, j) ==> KeyAt(args, j) !in m
  }

  function KeysFrom(args: seq<string>, i: nat): set<string> {
    set j | i <= j < |args| && Dashed(args, j) :: KeyAt(args, j)
  }

  /** Building from `i` on succeeds exactly when the remaining flags are
      new to `m` and distinct from one another. */
  lemma {:induction false} ParseFromSucceeds(args: seq<string>, i: nat, m: map<string, Option<string>>)
    requires i <= |args|
    ensures ParseFrom(args, i, m).Parsed? <==> FreshFrom(args, i, m) && DistinctFrom(args, i)
    decreases |args| - i
  {
    if i < |args| {
      if !Dashed(args, i) {
        ParseFromSucceeds(args, i + 1, m);
      } else if KeyAt(args, i) in m {
        assert !FreshFrom(args, i, m);
      } else {
        var m' := m[KeyAt(args, i) := ValueAt(args, i)];
        ParseFromSucceeds(args, i + 1, m');
        if FreshFrom(args, i, m) && DistinctFrom(args, i) {
          assert FreshFrom(args, i + 1, m');
        }
        if FreshFrom(args, i + 1, m') && DistinctFrom(args, i + 1) {
          assert DistinctFrom(args, i) by {
            forall j, k | i <= j < k < |args| && Dashed(args, j) && Dashed(args, k)
              ensures KeyAt(args, j) != KeyAt(args, k)
            {
              if j == i {
                assert KeyAt(args, k) !in m';
              }
            }
          }
        }
      }
    }
  }

  /** A successful build adds exactly the remaining flags to `m`. */
  lemma {:induction false} ParseFromKeys(args: seq<string>, i: nat, m: map<string, Option<string>>)
    requires i <= |args| && ParseFrom(args, i, m).Parsed?
    ensures ParseFrom(args, i, m).dict.Keys == m.Keys + KeysFrom(args, i)
    decreases |args| - i
  {
    if i < |args| {
      if !Dashed(args, i) {
        ParseFromKeys(args, i + 1, m);
        assert KeysFrom(args, i) == KeysFrom(args, i + 1);
      } else {
        ParseFromKeys(args, i + 1, m[KeyAt(args, i) := ValueAt(args, i)]);
        assert KeysFrom(args, i) == {KeyAt(args, i)} + KeysFrom(args, i + 1);
      }
    }
  }

  /** A successful build keeps every entry of `m`. */
  lemma {:induction false} ParseFromKeeps(args: seq<string>, i: nat, m: map<string, Option<string>>, k: string)
    requires i <= |args| && ParseFrom(args, i, m).Parsed? && k in m
    ensures k in ParseFrom(args, i, m).dict && ParseFrom(args, i, m).dict[k] == m[k]
    decreases |args| - i
  {
    if i < |args| {
      if !Dashed(args, i) {
        ParseFromKeeps(args, i + 1, m, k);
      } else {
        ParseFromKeeps(args, i + 1, m[KeyAt(args, i) := ValueAt(args, i)], k);
      }
    }
  }

  /** A successful build gives each remaining flag the value that follows
      it. */
  lemma {:induction false} ParseFromValue(args: seq<string>, i: nat, m: map<string, Option<string>>, j: int)
    requires i <= j < |args| && Dashed(args, j) && ParseFrom(args, i, m).Parsed?
    ensures KeyAt(args, j) in ParseFrom(args, i, m).dict
    ensures ParseFrom(args, i, m).dict[KeyAt(args, j)] == ValueAt(args, j)
    decreases |args| - i
  {
    if !Dashed(args, i) {
      ParseFromValue(args, i + 1, m, j);
    } else {
      var m' := m[KeyAt(args, i) := ValueAt(args, i)];
      if j == i {
        ParseFromKeeps(args, i + 1, m', KeyAt(args, i));
      } else {
        ParseFromValue(args, i + 1, m', j);
      }
    }
  }

  /** Every flag is distinct after lower-casing. */
  predicate DistinctFlags(args: seq<string>) {
    DistinctFrom(args, 0)
  }

  /** Building the dictionary succeeds exactly when no two flags differ
      only in case or are repeated; then its keys are exactly the flags,
      lower-cased, each holding the value that follows it, and every key
      and value is lower-case. */
  lemma ParseMeaning(args: seq<string>)
    ensures Parse(args).Parsed? <==> DistinctFlags(args)
    ensures Parse(args).Parsed? ==>
              && Parse(args).dict.Keys == KeysFrom(args, 0)
              && (forall j :: 0 <= j < |args| && Dashed(args, j) ==>
                    Parse(args).dict[KeyAt(args, j)] == ValueAt(args, j))
              && (forall k :: k in Parse(args).dict ==> IsLower(k) && StartsWithDash(k))
              && (forall k :: k in Parse(args).dict && Parse(args).dict[k].Some? ==>
                    IsLower(Parse(args).dict[k].value))
  {
    ParseFromSucceeds(args, 0, map[]);
    if Parse(args).Parsed? {
      var d := Parse(args).dict;
      ParseFromKeys(args, 0, map[]);
      forall j | 0 <= j < |args| && Dashed(args, j)
        ensures d[KeyAt(args, j)] == ValueAt(args, j)
      {
        ParseFromValue(args, 0, map[], j);
      }
      forall k | k in d
        ensures IsLower(k) && StartsWithDash(k)
        ensures d[k].Some? ==> IsLower(d[k].value)
      {
        var j :| 0 <= j < |args| && Dashed(args, j) && KeyAt(args, j) == k;
        LowerFacts(args[j]);
      }
    }
  }

  /** A duplicate is reported under the key of the second occurrence,
      which is a lower-case flag. */
  lemma {:induction false} DuplicateIsAFlag(args: seq<string>, i: nat, m: map<string, Option<string>>)
    requires i <= |args|
    requires ParseFrom(args, i, m).DuplicateKey?
    ensures exists j :: i <= j < |args| && Dashed(args, j) && KeyAt(args, j) == ParseFrom(args, i, m).key
    decreases |args| - i
  {
    if !Dashed(args, i) {
      DuplicateIsAFlag(args, i + 1, m);
    } else if KeyAt(args, i) !in m {
      DuplicateIsAFlag(args, i + 1, m[KeyAt(args, i) := ValueAt(args, i)]);
    }
  }

  /** GetCommandLineArgs: one pass over the arguments, stopping at the
      first repeated key. */
  method GetCommandLineArgs(args: seq<string>) returns (r: ParseResult)
    ensures r == Parse(args)
  {
    var argDictionary: map<string, Option<string>> := map[];
    var i := 0;
    while i < |args|
      invariant 0 <= i <= |args|
      invariant ParseFrom(args, i, argDictionary) == Parse(args)
    {
      var arg := Lower(args[i]);
      if StartsWithDash(arg) {
        var value: Option<string> := if i < |args| - 1 then Some(args[i + 1]) else None;
        if value.Some? && StartsWithDash(value.value) {
          value := None;
        }
        if arg in argDictionary {
          return DuplicateKey(arg);
        }
        var lowered := if value.Some? then Some(Lower(value.value)) else None;
        argDictionary := argDictionary[arg := lowered];
      }
      i := i + 1;
    }
    return Parsed(argDictionary);
  }

  /** What the process does at start-up. A missing mode value and a
      repeated argument are exceptions that abort Start. */
  datatype Action =
    | StartServer
    | StartHost
    | StartClient
    | WarnUnknownMode(mode: string)
    | DoNothing
    | NullModeFault
    | DuplicateArgumentFault(key: string)

  predicate StartsNetwork(a: Action) {
    a.StartServer? || a.StartHost? || a.StartClient?
  }

  /** StartBasedOnMode: the mode is compared case-insensitively; a null
      mode throws. */
  function StartBasedOnMode(mode: Option<string>): (a: Action)
    ensures mode.None? <==> a.NullModeFault?
    ensures a.WarnUnknownMode? ==> mode == Some(a.mode)
    ensures mode.Some? ==> (StartsNetwork(a) <==> Lower(mode.value) in {"server", "host", "client"})
    ensures mode.Some? ==> (a == StartServer <==> Lower(mode.value) == "server")
    ensures mode.Some? ==> (a == StartHost <==> Lower(mode.value) == "host")
    ensures mode.Some? ==> (a == StartClient <==> Lower(mode.value) == "client")
    ensures mode.Some? && Lower(mode.value) !in {"server", "host", "client"} ==> a == WarnUnknownMode(mode.value)
  {
    if mode.None? then NullModeFault
    else
      var m := Lower(mode.value);
      if m == "server" then StartServer
      else if m == "host" then StartHost
      else if m == "client" then StartClient
      else WarnUnknownMode(mode.value)
  }

  /** Two spellings of a mode that differ only in case start the same
      thing. */
  lemma ModeIgnoresCase(a: string, b: string)
    requires Lower(a) == Lower(b)
    ensures StartsNetwork(StartBasedOnMode(Some(a))) ==> StartBasedOnMode(Some(a)) == StartBasedOnMode(Some(b))
    ensures StartsNetwork(StartBasedOnMode(Some(a))) <==> StartsNetwork(StartBasedOnMode(Some(b)))
  {
  }

  /** The specification of Start: editor first, then a non-empty APP_MODE,
      then the `-mode` argument. */
  function Launch(isEditor: bool, envMode: Option<string>, args: seq<string>): Action {
    if isEditor then DoNothing
    else if envMode.Some? && envMode.value != "" then StartBasedOnMode(envMode)
    else match Parse(args)
      case DuplicateKey(k) => DuplicateArgumentFault(k)
      case Parsed(d) => if "-mode" in d then StartBasedOnMode(d["-mode"]) else DoNothing
  }

  /** In the editor nothing is started; a non-empty APP_MODE decides alone,
      whatever the arguments; otherwise the arguments decide, and a
      network role is started only through a `-mode` flag followed by a
      value. */
  lemma LaunchPrecedence(isEditor: bool, envMode: Option<string>, args: seq<string>)
    ensures isEditor ==> Launch(isEditor, envMode, args) == DoNothing
    ensures !isEditor && envMode.Some? && envMode.value != "" ==>
              forall other :: Launch(isEditor, envMode, other) == StartBasedOnMode(envMode)
    ensures !isEditor && (envMode.None? || envMode.value == "") && StartsNetwork(Launch(isEditor, envMode, args)) ==>
              exists j :: 0 <= j < |args| - 1 && Lower(args[j]) == "-mode" && !StartsWithDash(args[j + 1])
  {
    if !isEditor && (envMode.None? || envMode.value == "") && StartsNetwork(Launch(isEditor, envMode, args)) {
      ParseMeaning(args);
      var d := Parse(args).dict;
      assert "-mode" in KeysFrom(args, 0);
      var j :| 0 <= j < |args| && Dashed(args, j) && KeyAt(args, j) == "-mode";
      assert d["-mode"] == ValueAt(args, j);
    }
  }

  /** `-MODE Server` starts a server. */
  lemma ModeArgumentExample()
    ensures Launch(false, None, ["game", "-MODE", "Server"]) == StartServer
  {
    var args := ["game", "-MODE", "Server"];
    assert Lower("game") == "game";
    assert Lower("-MODE") == "-mode";
    assert Lower("Server") == "server";
    assert ParseFrom(args, 0, map[]) == ParseFrom(args, 1, map[]);
    assert ParseFrom(args, 1, map[]) == ParseFrom(args, 2, map["-mode" := Some("server")]);
  }

  /** A `-mode` flag with no value after it aborts Start, even when
      APP_MODE is set but empty. */
  lemma MissingValueExample()
    ensures Launch(false, Some(""), ["game", "-mode"]) == NullModeFault
  {
    var args := ["game", "-mode"];
    assert Lower("game") == "game";
    assert Lower("-mode") == "-mode";
    assert ParseFrom(args, 0, map[]) == ParseFrom(args, 1, map[]);
    assert ParseFrom(args, 1, map[]) == ParseFrom(args, 2, map["-mode" := None]);
  }

  /** A `-mode` flag followed by another flag has no value either. */
  lemma FlagAsValueExample()
    ensures Launch(false, None, ["-mode", "-batchmode"]) == NullModeFault
  {
    var args := ["-mode", "-batchmode"];
    assert Lower("-mode") == "-mode";
    assert Lower("-batchmode") == "-batchmode";
    assert ParseFrom(args, 0, map[]) == ParseFrom(args, 1, map["-mode" := None]);
    assert ParseFrom(args, 1, map["-mode" := None]) == ParseFrom(args, 2, map["-mode" := None, "-batchmode" := None]);
  }

  /** `-mode` given twice, in different case, aborts Start. */
  lemma RepeatedFlagExample()
    ensures Launch(false, None, ["-mode", "host", "-Mode", "client"]) == DuplicateArgumentFault("-mode")
  {
    var args := ["-mode", "host", "-Mode", "client"];
    assert Lower("-mode") == "-mode";
    assert Lower("host") == "host";
    assert Lower("-Mode") == "-mode";
    var m := map["-mode" := Some("host")];
    assert ParseFrom(args, 0, map[]) == ParseFrom(args, 1, m);
    assert ParseFrom(args, 1, m) == ParseFrom(args, 2, m);
    assert ParseFrom(args, 2, m) == DuplicateKey("-mode");
  }

  class NetworkCommandLine {
    /** Start: `isEditor`, the APP_MODE variable and the process arguments
        are its inputs; the returned action is what it asks of the network
        manager. */
    method Start(isEditor: bool, envMode: Option<string>, args: seq<string>) returns (action: Action)
      ensures action == Launch(isEditor, envMode, args)
    {
      if isEditor {
        return DoNothing;
      }
      if envMode.Some? && envMode.value != "" {
        return StartBasedOnMode(envMode);
      }
      var parsed := GetCommandLineArgs(args);
      if parsed.DuplicateKey? {
        return DuplicateArgumentFault(parsed.key);
      }
      if "-mode" in parsed.dict {
        return StartBasedOnMode(parsed.dict["-mode"]);
      }
      return DoNothing;
    }
  }
}
