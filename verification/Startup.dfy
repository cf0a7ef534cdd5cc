/** ptero-wings-controller/startup.go: from a startup string to a container command. */
module Startup {
  import opened Core
  import opened Api
  import opened Tokenizer
  import opened Expansion

  /** The bindings of an environment: nonempty values, later entries win. */
  function EnvBindings(env: seq<EnvVar>): (m: map<string, string>)
    ensures forall k | k in m :: m[k] != ""
  {
    if env == [] then map[]
    else
      var last := env[|env| - 1];
      var before := EnvBindings(env[..|env| - 1]);
      if last.value != "" then before[last.name := last.value] else before
  }

  /** Startup variables, even empty ones, win over the environment. */
  function Merged(variables: map<string, string>, env: seq<EnvVar>): (m: map<string, string>)
    ensures forall k | k in variables :: k in m && m[k] == variables[k]
    ensures forall k :: k in m <==> k in variables || k in EnvBindings(env)
    ensures forall k :: k in m && k !in variables ==> m[k] == EnvBindings(env)[k]
  {
    EnvBindings(env) + variables
  }

  /** Entry i is the last one that gives the name a value. */
  predicate Binds(env: seq<EnvVar>, k: string, i: nat) {
    && i < |env| && env[i].name == k && env[i].value != ""
    && forall j | i < j < |env| && env[j].name == k :: env[j].value == ""
  }

  predicate NeverBound(env: seq<EnvVar>, k: string) {
    forall j | 0 <= j < |env| && env[j].name == k :: env[j].value == ""
  }

  /** A name is bound exactly when some entry gives it a nonempty value, and the last such entry counts. */
  lemma {:induction false} EnvBindingsExact(env: seq<EnvVar>, k: string) returns (i: nat)
    ensures k !in EnvBindings(env) <==> NeverBound(env, k)
    ensures k in EnvBindings(env) ==> Binds(env, k, i) && EnvBindings(env)[k] == env[i].value
    decreases |env|
  {
    i := 0;
    if env != [] {
      var n := |env| - 1;
      assert forall j | 0 <= j < n :: env[..n][j] == env[j];
      i := EnvBindingsExact(env[..n], k);
      if env[n].name == k && env[n].value != "" {
        i := n;
      }
    }
  }

  method MergedVariables(variables: map<string, string>, env: seq<EnvVar>) returns (merged: map<string, string>)
    ensures merged == Merged(variables, env)
  {
    merged := map[];
    for i := 0 to |env|
      invariant merged == EnvBindings(env[..i])
    {
      assert env[..i + 1][..i] == env[..i];
      if env[i].value != "" {
        merged := merged[env[i].name := env[i].value];
      }
    }
    assert env[..|env|] == env;
    merged := Overlay(merged, variables);
  }

  method Overlay(bindings: map<string, string>, variables: map<string, string>) returns (merged: map<string, string>)
    ensures merged == bindings + variables
  {
    merged := bindings;
    var left := variables.Keys;
    while left != {}
      invariant left <= variables.Keys
      invariant forall k :: k in merged <==> k in bindings || (k in variables && k !in left)
      invariant forall k | k in merged :: merged[k] == if k in variables && k !in left then variables[k] else bindings[k]
    {
      var key :| key in left;
      merged := merged[key := variables[key]];
      left := left - {key};
    }
  }

  /** strings.TrimSpace(raw) == "" */
  predicate Blank(raw: string) {
    forall c | c in raw :: IsSpace(c)
  }

  /** A command and its arguments; None where the source returns nil. */
  datatype Entry = Entry(command: Option<seq<string>>, args: Option<seq<string>>)

  function EntryOf(tokens: seq<string>): (e: Entry)
    ensures e.command.Some? <==> tokens != []
    ensures tokens != [] ==> e.args.Some? && e.command.value + e.args.value == tokens && |e.command.value| == 1
  {
    if tokens == [] then Entry(None, None)
    else
      assert [tokens[0]] + tokens[1..] == tokens;
      Entry(Some([tokens[0]]), Some(tokens[1..]))
  }

  function Resolved(raw: string, vars: map<string, string>, order: seq<string>): (r: Result<Entry>)
    requires forall k | k in order :: k in vars
  {
    if Blank(raw) then Ok(Entry(None, None))
    else match Split(ExpandInOrder(raw, order, vars))
         case Err(m) => Err(m)
         case Ok(tokens) => Ok(EntryOf(tokens))
  }

  method Resolve(raw: string, variables: map<string, string>, env: seq<EnvVar>) returns (r: Result<Entry>)
    ensures exists order :: IsOrder(order, Merged(variables, env)) && r == Resolved(raw, Merged(variables, env), order)
  {
    var vars := MergedVariables(variables, env);
    var replaced := ExpandStartup(raw, vars);
    ghost var order :| IsOrder(order, vars) && replaced == ExpandInOrder(raw, order, vars);
    if forall c | c in raw :: IsSpace(c) {
      r := Ok(Entry(None, None));
    } else {
      var tokens := SplitCommand(replaced);
      if tokens.Err? {
        r := Err(tokens.message);
      } else if |tokens.value| == 0 {
        r := Ok(Entry(None, None));
      } else {
        r := Ok(Entry(Some([tokens.value[0]]), Some(tokens.value[1..])));
      }
    }
    assert r == Resolved(raw, vars, order);
  }

  function StartupVars(spec: Spec): (m: map<string, string>)
    requires spec.startup.Some?
  {
    Merged(spec.startup.value.variables, spec.game.env)
  }

  ghost predicate OrderFor(order: seq<string>, spec: Spec) {
    spec.startup.Some? ==> IsOrder(order, StartupVars(spec))
  }

  /** The spec after ApplyStartup. */
  function Applied(spec: Spec, order: seq<string>): (r: Result<Spec>)
    requires spec.startup.Some? ==> forall k | k in order :: k in StartupVars(spec)
  {
    if spec.startup.None? then Ok(spec)
    else match Resolved(spec.startup.value.raw, StartupVars(spec), order)
         case Err(m) => Err(m)
         case Ok(e) =>
           Ok(spec.(game := spec.game.(
                command := if e.command.Some? then e.command.value else spec.game.command,
                args := if e.args.Some? then e.args.value else spec.game.args)))
  }

  method ApplyStartup(gs: GameServerRef) returns (r: Result<()>)
    modifies gs
    ensures exists order :: OrderFor(order, old(gs.value.spec)) &&
              match Applied(old(gs.value.spec), order)
              case Err(m) => r == Err(m) && gs.value == old(gs.value)
              case Ok(spec) => r == Ok(()) && gs.value == old(gs.value).(spec := spec)
  {
    var before := gs.value;
    if before.spec.startup.None? {
      assert OrderFor([], before.spec);
      return Ok(());
    }
    var startup := before.spec.startup.value;
    var e := Resolve(startup.raw, startup.variables, before.spec.game.env);
    ghost var order :| IsOrder(order, StartupVars(before.spec)) && e == Resolved(startup.raw, StartupVars(before.spec), order);
    assert OrderFor(order, before.spec);
    if e.Err? {
      return Err(e.message);
    }
    var game := before.spec.game;
    if e.value.command.Some? {
      game := game.(command := e.value.command.value);
    }
    if e.value.args.Some? {
      game := game.(args := e.value.args.value);
    }
    gs.value := before.(spec := before.spec.(game := game));
    return Ok(());
  }

  // ---------------------------------------------------------------- what the container is given

  /** The words of a command line as command and arguments; nothing is set when there are none. */
  predicate Runs(e: Entry, ws: seq<string>) {
    if ws == [] then e == Entry(None, None) else e == Entry(Some([ws[0]]), Some(ws[1..]))
  }

  /** Blank text has no holes, and filling it changes nothing. */
  lemma {:induction false} BlankHasNoHoles(t: seq<Part>, vars: map<string, string>)
    requires Blank(Show(t, map[]))
    ensures Show(t, vars) == Show(t, map[])
    decreases |t|
  {
    if t != [] {
      var head, tail := ShowPart(t[0], map[]), Show(t[1..], map[]);
      assert forall c | c in tail :: c in head + tail;
      BlankHasNoHoles(t[1..], vars);
      if t[0].Hole? {
        assert head[0] == '{' && (head + tail)[0] == '{' && (head + tail)[0] in head + tail;
      }
    }
  }

  /** For every clean template and every order of the map: resolving it fails exactly when the template filled
      in at once is no well-formed command line, with the error of that line; otherwise the command is the
      first word of that line and the arguments are the others. */
  lemma ResolvedExact(t: seq<Part>, vars: map<string, string>, order: seq<string>)
    requires Clean(t, vars) && IsOrder(order, vars)
    ensures var r := Resolved(Show(t, map[]), vars, order);
            && (r.Err? ==> Split(Show(t, vars)) == Err(r.message))
            && (r.Err? <==> forall ws :: !Denotes(Show(t, vars), ws))
            && (forall ws | Denotes(Show(t, vars), ws) :: r.Ok? && Runs(r.value, ws))
  {
    Confluence(t, vars, order);
    if Blank(Show(t, map[])) {
      BlankHasNoHoles(t, vars);
      ScanBlanks(Show(t, vars));
      assert Split(Show(t, vars)) == Ok([]);
    }
    forall ws ensures Split(Show(t, vars)) == Ok(ws) <==> Denotes(Show(t, vars), ws) {
      SplitExact(Show(t, vars), ws);
    }
  }

  /** The same for a whole spec: only the command and the arguments change, and only when there are words. */
  lemma AppliedExact(spec: Spec, t: seq<Part>, order: seq<string>)
    requires spec.startup.Some? && spec.startup.value.raw == Show(t, map[])
    requires Clean(t, StartupVars(spec)) && OrderFor(order, spec)
    ensures var line := Show(t, StartupVars(spec));
            var r := Applied(spec, order);
            && (r.Err? <==> forall ws :: !Denotes(line, ws))
            && (forall ws | Denotes(line, ws) ::
                  r == Ok(if ws == [] then spec else spec.(game := spec.game.(command := [ws[0]], args := ws[1..]))))
  {
    ResolvedExact(t, StartupVars(spec), order);
  }

  /** Without a startup string the spec stays as it is. */
  lemma AppliedWithout(spec: Spec, order: seq<string>)
    requires spec.startup.None?
    ensures Applied(spec, order) == Ok(spec)
  {
  }

  // ---------------------------------------------------------------- what a pass may rely on

  /** The startup string is a clean template for its variables. */
  ghost predicate Stable(spec: Spec) {
    spec.startup.Some? ==>
      exists t :: spec.startup.value.raw == Show(t, map[]) && Clean(t, StartupVars(spec))
  }

  /** For clean templates the order of the map does not matter. */
  lemma StartupIsDeterministic(spec: Spec, order: seq<string>, order': seq<string>)
    requires Stable(spec) && OrderFor(order, spec) && OrderFor(order', spec)
    ensures Applied(spec, order) == Applied(spec, order')
  {
    if spec.startup.Some? {
      var t :| spec.startup.value.raw == Show(t, map[]) && Clean(t, StartupVars(spec));
      Confluence(t, StartupVars(spec), order);
      Confluence(t, StartupVars(spec), order');
    }
  }

  /** CreateServer applies the startup and stores it; the operator applies it again and finds
      the same command. */
  lemma StartupIsIdempotent(spec: Spec, order: seq<string>, order': seq<string>)
    requires Stable(spec) && OrderFor(order, spec) && OrderFor(order', spec) && Applied(spec, order).Ok?
    ensures var once := Applied(spec, order).value;
            OrderFor(order', once) && Applied(once, order') == Ok(once)
  {
    StartupIsDeterministic(spec, order, order');
    var once := Applied(spec, order).value;
    assert once.startup == spec.startup && once.game.env == spec.game.env;
  }
}
