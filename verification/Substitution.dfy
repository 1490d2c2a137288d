/** resolve_payload: replacing dependency references in a task payload by results. */
module Substitution {
  import opened Prelude
  import opened Contracts

  datatype PayloadError =
    | InvalidIdentifier
    | NotDeclared(target: Uuid)
    | NoResult(target: Uuid)
    | NoPath(target: Uuid, path: seq<string>)
    | NotAnObject
    | TooLarge

  type Tasks = map<Uuid, PlannedTask>

  const MAX_BYTES := 65536

  // ---- lookup ---------------------------------------------------------------

  function Lookup(entries: seq<Entry>, name: string): Option<Json> {
    if entries == [] then None
    else if entries[0].name == name then Some(entries[0].value)
    else Lookup(entries[1..], name)
  }

  /** Follows a dotted path through nested objects. */
  function Follow(current: Json, path: seq<string>): Option<Json>
    decreases |path|
  {
    if path == [] then Some(current)
    else if !current.Dict? then None
    else match Lookup(current.entries, path[0])
      case None => None
      case Some(next) => Follow(next, path[1..])
  }

  /** The value of one reference. */
  function RefValue(target: Option<Uuid>, path: seq<string>, declared: set<Uuid>, tasks: Tasks): Result<Json,
                    PayloadError> {
    match target
    case None => Err(InvalidIdentifier)
    case Some(t) =>
      if t !in declared then Err(NotDeclared(t))
      else if t !in tasks || tasks[t].result.None? then Err(NoResult(t))
      else match Follow(tasks[t].result.value, path)
        case None => Err(NoPath(t, path))
        case Some(v) => Ok(v)
  }

  // ---- substitution -----------------------------------------------------------

  function Resolve(v: Json, declared: set<Uuid>, tasks: Tasks): Result<Json, PayloadError>
    decreases v, 1
  {
    match v
    case Ref(target, path) => RefValue(target, path, declared, tasks)
    case List(items) =>
      (match ResolveItems(items, declared, tasks)
       case Ok(ws) => Ok(List(ws))
       case Err(e) => Err(e))
    case Dict(entries) =>
      (match ResolveEntries(entries, declared, tasks)
       case Ok(ws) => Ok(Dict(ws))
       case Err(e) => Err(e))
    case _ => Ok(v)
  }

  function ResolveItems(vs: seq<Json>, declared: set<Uuid>, tasks: Tasks): Result<seq<Json>, PayloadError>
    decreases vs, 0
  {
    if vs == [] then Ok([])
    else match Resolve(vs[0], declared, tasks)
      case Err(e) => Err(e)
      case Ok(w) =>
        (match ResolveItems(vs[1..], declared, tasks)
         case Err(e) => Err(e)
         case Ok(ws) => Ok([w] + ws))
  }

  function ResolveEntries(vs: seq<Entry>, declared: set<Uuid>, tasks: Tasks): Result<seq<Entry>, PayloadError>
    decreases vs, 0
  {
    if vs == [] then Ok([])
    else match Resolve(vs[0].value, declared, tasks)
      case Err(e) => Err(e)
      case Ok(w) =>
        (match ResolveEntries(vs[1..], declared, tasks)
         case Err(e) => Err(e)
         case Ok(ws) => Ok([Entry(vs[0].name, w)] + ws))
  }

  function Declared(task: PlannedTask): set<Uuid> {
    set d | d in task.dependsOn
  }

  /** `size` is the length of the encoded payload in bytes. */
  function ResolvePayload(task: PlannedTask, tasks: Tasks, size: Json -> nat): Result<Json, PayloadError> {
    match Resolve(task.payload, Declared(task), tasks)
    case Err(e) => Err(e)
    case Ok(w) =>
      if !w.Dict? then Err(NotAnObject)
      else if size(w) > MAX_BYTES then Err(TooLarge)
      else Ok(w)
  }

  // ---- what it means ------------------------------------------------------------

  /** The references of a value, wherever they stand. */
  function References(v: Json): set<(Option<Uuid>, seq<string>)>
    decreases v
  {
    match v
    case Ref(target, path) => {(target, path)}
    case List(items) => set i, r | 0 <= i < |items| && r in References(items[i]) :: r
    case Dict(entries) => set i, r | 0 <= i < |entries| && r in References(entries[i].value) :: r
    case _ => {}
  }

  /** The first entry of that name in an object holds `x`. */
  predicate Holds(v: Json, name: string, x: Json) {
    && v.Dict?
    && exists i :: 0 <= i < |v.entries| && v.entries[i] == Entry(name, x)
                   && forall k :: 0 <= k < i ==> v.entries[k].name != name
  }

  /** A chain of values, one longer than the path, in which each value but the last is an object whose entry
      for that part of the path is the next value. */
  predicate Chain(chain: seq<Json>, path: seq<string>) {
    && |chain| == |path| + 1
    && forall k :: 0 <= k < |path| ==> Holds(chain[k], path[k], chain[k + 1])
  }

  ghost predicate PathGives(start: Json, path: seq<string>, x: Json) {
    exists chain :: Chain(chain, path) && chain[0] == start && chain[|path|] == x
  }

  lemma {:induction false} LookupMeaning(entries: seq<Entry>, name: string, x: Json)
    ensures Lookup(entries, name) == Some(x) <==> Holds(Dict(entries), name, x)
  {
    if entries != [] {
      LookupMeaning(entries[1..], name, x);
      if Holds(Dict(entries[1..]), name, x) && entries[0].name != name {
        var i :| 0 <= i < |entries[1..]| && entries[1..][i] == Entry(name, x)
                 && forall k :: 0 <= k < i ==> entries[1..][k].name != name;
        assert entries[i + 1] == Entry(name, x);
        assert forall k :: 0 < k < i + 1 ==> entries[k] == entries[1..][k - 1];
      }
      if Holds(Dict(entries), name, x) && entries[0].name != name {
        var i :| 0 <= i < |entries| && entries[i] == Entry(name, x) && forall k :: 0 <= k < i ==> entries[k].name != name;
        assert entries[1..][i - 1] == Entry(name, x);
      }
    }
  }

  lemma ChainStep(start: Json, path: seq<string>, x: Json, next: Json)
    requires path != [] && Holds(start, path[0], next) && PathGives(next, path[1..], x)
    ensures PathGives(start, path, x)
  {
    hide Holds;
    var rest :| Chain(rest, path[1..]) && rest[0] == next && rest[|path[1..]|] == x;
    var chain := [start] + rest;
    forall k | 0 <= k < |path| ensures Holds(chain[k], path[k], chain[k + 1]) {
      if k > 0 { assert Holds(rest[k - 1], path[1..][k - 1], rest[k]); }
    }
    assert Chain(chain, path);
  }

  lemma ChainRest(start: Json, path: seq<string>, x: Json) returns (next: Json)
    requires path != [] && PathGives(start, path, x)
    ensures Holds(start, path[0], next) && PathGives(next, path[1..], x)
  {
    hide Holds;
    var chain :| Chain(chain, path) && chain[0] == start && chain[|path|] == x;
    next := chain[1];
    var rest := chain[1..];
    forall k | 0 <= k < |path[1..]| ensures Holds(rest[k], path[1..][k], rest[k + 1]) {
      assert Holds(chain[k + 1], path[k + 1], chain[k + 2]);
    }
    assert Chain(rest, path[1..]);
  }

  /** What a dotted path means. */
  lemma {:induction false} FollowMeaning(start: Json, path: seq<string>, x: Json)
    ensures Follow(start, path) == Some(x) <==> PathGives(start, path, x)
    decreases |path|
  {
    hide Holds, Chain, Lookup;
    if path == [] {
      NoPathGivesStart(start, x);
    } else {
      if Follow(start, path) == Some(x) {
        var next := Lookup(start.entries, path[0]).value;
        LookupMeaning(start.entries, path[0], next);
        FollowMeaning(next, path[1..], x);
        ChainStep(start, path, x, next);
      }
      if PathGives(start, path, x) {
        var next := ChainRest(start, path, x);
        HoldsInObject(start, path[0], next);
        LookupMeaning(start.entries, path[0], next);
        FollowMeaning(next, path[1..], x);
      }
    }
  }

  lemma NoPathGivesStart(start: Json, x: Json)
    ensures PathGives(start, [], x) <==> x == start
  {
    assert Chain([start], []);
  }

  lemma HoldsInObject(v: Json, name: string, x: Json)
    requires Holds(v, name, x)
    ensures v.Dict?
  {
  }

  /** The reference stands for `x`: its target is a declared dependency with a result, and its path leads
      from that result to `x`. */
  ghost predicate RefGives(target: Option<Uuid>, path: seq<string>, declared: set<Uuid>, tasks: Tasks, x: Json) {
    && target.Some? && target.value in declared && target.value in tasks && tasks[target.value].result.Some?
    && PathGives(tasks[target.value].result.value, path, x)
  }

  lemma RefMeaning(target: Option<Uuid>, path: seq<string>, declared: set<Uuid>, tasks: Tasks, x: Json)
    ensures RefValue(target, path, declared, tasks) == Ok(x) <==> RefGives(target, path, declared, tasks, x)
  {
    hide Follow, PathGives;
    if target.Some? && target.value in tasks && tasks[target.value].result.Some? {
      FollowMeaning(tasks[target.value].result.value, path, x);
    }
  }

  /** Which error a reference raises. */
  lemma RefErrors(target: Option<Uuid>, path: seq<string>, declared: set<Uuid>, tasks: Tasks)
    ensures target.None? <==> RefValue(target, path, declared, tasks) == Err(InvalidIdentifier)
    ensures target.Some? ==>
      var t := target.value;
      var hasResult := t in tasks && tasks[t].result.Some?;
      && (RefValue(target, path, declared, tasks) == Err(NotDeclared(t)) <==> t !in declared)
      && (RefValue(target, path, declared, tasks) == Err(NoResult(t)) <==> t in declared && !hasResult)
      && (RefValue(target, path, declared, tasks) == Err(NoPath(t, path))
          <==> t in declared && hasResult && forall x :: !PathGives(tasks[t].result.value, path, x))
  {
    hide Follow, PathGives;
    if target.Some? && target.value in tasks && tasks[target.value].result.Some? {
      var start := tasks[target.value].result.value;
      forall x ensures Follow(start, path) == Some(x) <==> PathGives(start, path, x) { FollowMeaning(start, path, x); }
    }
  }

  /** `w` is `v` with every reference leaf, and nothing else, replaced by its value. */
  ghost predicate Replaces(v: Json, w: Json, declared: set<Uuid>, tasks: Tasks)
    decreases v
  {
    match v
    case Ref(target, path) => RefGives(target, path, declared, tasks, w)
    case List(items) =>
      && w.List? && |w.items| == |items|
      && forall i :: 0 <= i < |items| ==> Replaces(items[i], w.items[i], declared, tasks)
    case Dict(entries) =>
      && w.Dict? && |w.entries| == |entries|
      && forall i :: 0 <= i < |entries| ==>
           w.entries[i].name == entries[i].name && Replaces(entries[i].value, w.entries[i].value, declared, tasks)
    case _ => w == v
  }

  ghost predicate AllResolvable(refs: set<(Option<Uuid>, seq<string>)>, declared: set<Uuid>, tasks: Tasks) {
    forall r :: r in refs ==> exists x :: RefGives(r.0, r.1, declared, tasks, x)
  }

  lemma OneReference(target: Option<Uuid>, path: seq<string>, declared: set<Uuid>, tasks: Tasks)
    ensures RefValue(target, path, declared, tasks).Ok? <==> AllResolvable(References(Ref(target, path)), declared, tasks)
    ensures forall w :: RefValue(target, path, declared, tasks) == Ok(w) <==> Replaces(Ref(target, path), w, declared, tasks)
  {
    hide RefValue, RefGives;
    forall w ensures RefValue(target, path, declared, tasks) == Ok(w) <==> RefGives(target, path, declared, tasks, w) {
      RefMeaning(target, path, declared, tasks, w);
    }
    var v := RefValue(target, path, declared, tasks);
    assert v.Ok? ==> v == Ok(v.value);
    assert References(Ref(target, path)) == {(target, path)};
  }

  /** Substitution succeeds exactly when every reference can be resolved, and then its
      result is the one value that replaces exactly the reference leaves. */
  lemma {:induction false} ResolveMeaning(v: Json, declared: set<Uuid>, tasks: Tasks)
    ensures Resolve(v, declared, tasks).Ok? <==> AllResolvable(References(v), declared, tasks)
    ensures forall w :: Resolve(v, declared, tasks) == Ok(w) <==> Replaces(v, w, declared, tasks)
    decreases v, 1
  {
    match v
    case List(items) => ItemsMeaning(items, declared, tasks);
    case Dict(entries) => EntriesMeaning(entries, declared, tasks);
    case Ref(target, path) => OneReference(target, path, declared, tasks);
    case _ =>
  }

  lemma ItemsSplit(vs: seq<Json>, ws: seq<Json>, declared: set<Uuid>, tasks: Tasks)
    requires vs != []
    ensures References(List(vs)) == References(vs[0]) + References(List(vs[1..]))
    ensures Replaces(List(vs), List(ws), declared, tasks) <==>
            ws != [] && Replaces(vs[0], ws[0], declared, tasks) && Replaces(List(vs[1..]), List(ws[1..]), declared, tasks)
  {
    var rest := References(List(vs[1..]));
    forall r ensures r in References(List(vs)) <==> r in References(vs[0]) + rest {
      if r in References(List(vs)) {
        var i :| 0 <= i < |vs| && r in References(vs[i]);
        if i > 0 { assert vs[1..][i - 1] == vs[i]; }
      }
      if r in rest {
        var i :| 0 <= i < |vs[1..]| && r in References(vs[1..][i]);
        assert vs[i + 1] == vs[1..][i];
      }
    }
    if ws != [] && Replaces(vs[0], ws[0], declared, tasks) && Replaces(List(vs[1..]), List(ws[1..]), declared, tasks) {
      forall i | 0 <= i < |vs| ensures Replaces(vs[i], ws[i], declared, tasks) {
        if i > 0 { assert vs[1..][i - 1] == vs[i] && ws[1..][i - 1] == ws[i]; }
      }
    }
    if Replaces(List(vs), List(ws), declared, tasks) {
      forall i | 0 <= i < |vs[1..]| ensures Replaces(vs[1..][i], ws[1..][i], declared, tasks) {
        assert Replaces(vs[i + 1], ws[i + 1], declared, tasks);
      }
    }
  }

  lemma {:induction false} ItemsMeaning(vs: seq<Json>, declared: set<Uuid>, tasks: Tasks)
    ensures ResolveItems(vs, declared, tasks).Ok? <==> AllResolvable(References(List(vs)), declared, tasks)
    ensures forall ws :: ResolveItems(vs, declared, tasks) == Ok(ws) <==> Replaces(List(vs), List(ws), declared, tasks)
    decreases vs, 0
  {
    if vs != [] {
      ResolveMeaning(vs[0], declared, tasks);
      ItemsMeaning(vs[1..], declared, tasks);
      ItemsSplit(vs, [], declared, tasks);
      var all := ResolveItems(vs, declared, tasks);
      forall ws ensures all == Ok(ws) <==> Replaces(List(vs), List(ws), declared, tasks) {
        ItemsSplit(vs, ws, declared, tasks);
        if ws != [] {
          assert ws == [ws[0]] + ws[1..];
          if all.Ok? {
            var w, rest := Resolve(vs[0], declared, tasks).value, ResolveItems(vs[1..], declared, tasks).value;
            assert all.value[0] == w && all.value[1..] == rest;
          }
        }
      }
    }
  }

  lemma EntriesSplit(vs: seq<Entry>, ws: seq<Entry>, declared: set<Uuid>, tasks: Tasks)
    requires vs != []
    ensures References(Dict(vs)) == References(vs[0].value) + References(Dict(vs[1..]))
    ensures Replaces(Dict(vs), Dict(ws), declared, tasks) <==>
            && ws != [] && ws[0].name == vs[0].name && Replaces(vs[0].value, ws[0].value, declared, tasks)
            && Replaces(Dict(vs[1..]), Dict(ws[1..]), declared, tasks)
  {
    var rest := References(Dict(vs[1..]));
    forall r ensures r in References(Dict(vs)) <==> r in References(vs[0].value) + rest {
      if r in References(Dict(vs)) {
        var i :| 0 <= i < |vs| && r in References(vs[i].value);
        if i > 0 { assert vs[1..][i - 1] == vs[i]; }
      }
      if r in rest {
        var i :| 0 <= i < |vs[1..]| && r in References(vs[1..][i].value);
        assert vs[i + 1] == vs[1..][i];
      }
    }
    if ws != [] && ws[0].name == vs[0].name && Replaces(vs[0].value, ws[0].value, declared, tasks)
       && Replaces(Dict(vs[1..]), Dict(ws[1..]), declared, tasks)
    {
      forall i | 0 <= i < |vs|
        ensures ws[i].name == vs[i].name && Replaces(vs[i].value, ws[i].value, declared, tasks)
      {
        if i > 0 { assert vs[1..][i - 1] == vs[i] && ws[1..][i - 1] == ws[i]; }
      }
    }
    if Replaces(Dict(vs), Dict(ws), declared, tasks) {
      forall i | 0 <= i < |vs[1..]|
        ensures ws[1..][i].name == vs[1..][i].name && Replaces(vs[1..][i].value, ws[1..][i].value, declared, tasks)
      {
        assert ws[i + 1].name == vs[i + 1].name && Replaces(vs[i + 1].value, ws[i + 1].value, declared, tasks);
      }
    }
  }

  lemma {:induction false} EntriesMeaning(vs: seq<Entry>, declared: set<Uuid>, tasks: Tasks)
    ensures ResolveEntries(vs, declared, tasks).Ok? <==> AllResolvable(References(Dict(vs)), declared, tasks)
    ensures forall ws :: ResolveEntries(vs, declared, tasks) == Ok(ws) <==> Replaces(Dict(vs), Dict(ws), declared, tasks)
    decreases vs, 0
  {
    if vs != [] {
      ResolveMeaning(vs[0].value, declared, tasks);
      EntriesMeaning(vs[1..], declared, tasks);
      EntriesSplit(vs, [], declared, tasks);
      var all := ResolveEntries(vs, declared, tasks);
      forall ws ensures all == Ok(ws) <==> Replaces(Dict(vs), Dict(ws), declared, tasks) {
        EntriesSplit(vs, ws, declared, tasks);
        if ws != [] {
          assert ws == [ws[0]] + ws[1..];
          if all.Ok? {
            var rest := ResolveEntries(vs[1..], declared, tasks).value;
            assert all.value[1..] == rest;
          }
        }
      }
    }
  }

  /** The result is unique, so substitution is a function of the payload and the values of its references. */
  lemma {:induction false} ReplacementIsUnique(v: Json, w: Json, x: Json, declared: set<Uuid>, tasks: Tasks)
    requires Replaces(v, w, declared, tasks) && Replaces(v, x, declared, tasks)
    ensures w == x
  {
    ResolveMeaning(v, declared, tasks);
  }

  /** A payload without references is left as it is. */
  lemma {:induction false} NoReferencesNoChange(v: Json, declared: set<Uuid>, tasks: Tasks)
    requires References(v) == {}
    ensures Resolve(v, declared, tasks) == Ok(v)
  {
    ReplacesItself(v, declared, tasks);
    ResolveMeaning(v, declared, tasks);
  }

  lemma {:induction false} ReplacesItself(v: Json, declared: set<Uuid>, tasks: Tasks)
    requires References(v) == {}
    ensures Replaces(v, v, declared, tasks)
    decreases v
  {
    match v
    case Ref(target, path) =>
    case List(items) =>
      forall i | 0 <= i < |items| ensures Replaces(items[i], items[i], declared, tasks) {
        assert forall r :: r in References(items[i]) ==> r in References(v);
        ReplacesItself(items[i], declared, tasks);
      }
    case Dict(entries) =>
      forall i | 0 <= i < |entries| ensures Replaces(entries[i].value, entries[i].value, declared, tasks) {
        assert forall r :: r in References(entries[i].value) ==> r in References(v);
        ReplacesItself(entries[i].value, declared, tasks);
      }
    case _ =>
  }

  /** Two stores agree on what a task may look at: the results of its declared dependencies. */
  predicate AgreeOn(declared: set<Uuid>, tasks: Tasks, tasks': Tasks) {
    forall d :: d in declared ==>
      (if d in tasks then tasks[d].result else None) == (if d in tasks' then tasks'[d].result else None)
  }

  lemma {:induction false} OnlyDeclaredResultsMatter(v: Json, declared: set<Uuid>, tasks: Tasks, tasks': Tasks)
    requires AgreeOn(declared, tasks, tasks')
    ensures Resolve(v, declared, tasks) == Resolve(v, declared, tasks')
    decreases v, 1
  {
    match v
    case List(items) => OnlyDeclaredInItems(items, declared, tasks, tasks');
    case Dict(entries) => OnlyDeclaredInEntries(entries, declared, tasks, tasks');
    case _ =>
  }

  lemma {:induction false} OnlyDeclaredInItems(vs: seq<Json>, declared: set<Uuid>, tasks: Tasks, tasks': Tasks)
    requires AgreeOn(declared, tasks, tasks')
    ensures ResolveItems(vs, declared, tasks) == ResolveItems(vs, declared, tasks')
    decreases vs, 0
  {
    if vs != [] {
      OnlyDeclaredResultsMatter(vs[0], declared, tasks, tasks');
      OnlyDeclaredInItems(vs[1..], declared, tasks, tasks');
    }
  }

  lemma {:induction false} OnlyDeclaredInEntries(vs: seq<Entry>, declared: set<Uuid>, tasks: Tasks, tasks': Tasks)
    requires AgreeOn(declared, tasks, tasks')
    ensures ResolveEntries(vs, declared, tasks) == ResolveEntries(vs, declared, tasks')
    decreases vs, 0
  {
    if vs != [] {
      OnlyDeclaredResultsMatter(vs[0].value, declared, tasks, tasks');
      OnlyDeclaredInEntries(vs[1..], declared, tasks, tasks');
    }
  }

  lemma ReferenceNeeds(target: Option<Uuid>, path: seq<string>, declared: set<Uuid>, tasks: Tasks)
    ensures (exists x :: RefGives(target, path, declared, tasks, x)) <==>
      && target.Some? && target.value in declared && target.value in tasks && tasks[target.value].result.Some?
      && exists x :: PathGives(tasks[target.value].result.value, path, x)
  {
    hide PathGives;
    if target.Some? && target.value in declared && target.value in tasks && tasks[target.value].result.Some? {
      if x :| PathGives(tasks[target.value].result.value, path, x) { assert RefGives(target, path, declared, tasks, x); }
    }
  }

  /** The whole operation: it succeeds exactly when the payload is an object, every reference names a
      declared dependency with a result and an existing path, and the output fits; and it then returns
      the substituted payload. */
  lemma PayloadResolution(task: PlannedTask, tasks: Tasks, size: Json -> nat)
    ensures forall w :: ResolvePayload(task, tasks, size) == Ok(w) <==>
      Replaces(task.payload, w, Declared(task), tasks) && w.Dict? && size(w) <= 65536
    ensures (exists w :: Replaces(task.payload, w, Declared(task), tasks))
      <==> forall r :: r in References(task.payload) ==>
        && r.0.Some? && r.0.value in task.dependsOn && r.0.value in tasks && tasks[r.0.value].result.Some?
        && exists x :: PathGives(tasks[r.0.value].result.value, r.1, x)
  {
    hide PathGives, RefGives, Replaces, Resolve;
    ResolveMeaning(task.payload, Declared(task), tasks);
    var r := Resolve(task.payload, Declared(task), tasks);
    if r.Ok? { assert Replaces(task.payload, r.value, Declared(task), tasks); }
    forall r | r in References(task.payload)
      ensures (exists x :: RefGives(r.0, r.1, Declared(task), tasks, x)) <==>
        && r.0.Some? && r.0.value in task.dependsOn && r.0.value in tasks && tasks[r.0.value].result.Some?
        && exists x :: PathGives(tasks[r.0.value].result.value, r.1, x)
    {
      ReferenceNeeds(r.0, r.1, Declared(task), tasks);
    }
  }

  lemma {:induction false} ErrorOfAReference(v: Json, declared: set<Uuid>, tasks: Tasks)
    requires Resolve(v, declared, tasks).Err?
    ensures exists r :: r in References(v) && RefValue(r.0, r.1, declared, tasks) == Err(Resolve(v, declared, tasks).error)
    decreases v, 1
  {
    hide RefValue;
    match v
    case Ref(target, path) => assert (target, path) in References(v);
    case List(items) =>
      var k, r := ErrorInItems(items, declared, tasks);
      assert r in References(v);
    case Dict(entries) =>
      var k, r := ErrorInEntries(entries, declared, tasks);
      assert r in References(v);
  }

  lemma {:induction false} ErrorInItems(vs: seq<Json>, declared: set<Uuid>, tasks: Tasks)
    returns (k: nat, r: (Option<Uuid>, seq<string>))
    requires ResolveItems(vs, declared, tasks).Err?
    ensures k < |vs| && r in References(vs[k])
    ensures RefValue(r.0, r.1, declared, tasks) == Err(ResolveItems(vs, declared, tasks).error)
    decreases vs, 0
  {
    hide RefValue, References;
    if Resolve(vs[0], declared, tasks).Err? {
      ErrorOfAReference(vs[0], declared, tasks);
      k := 0;
      r :| r in References(vs[0]) && RefValue(r.0, r.1, declared, tasks) == Err(Resolve(vs[0], declared, tasks).error);
    } else {
      k, r := ErrorInItems(vs[1..], declared, tasks);
      k := k + 1;
    }
  }

  lemma {:induction false} ErrorInEntries(vs: seq<Entry>, declared: set<Uuid>, tasks: Tasks)
    returns (k: nat, r: (Option<Uuid>, seq<string>))
    requires ResolveEntries(vs, declared, tasks).Err?
    ensures k < |vs| && r in References(vs[k].value)
    ensures RefValue(r.0, r.1, declared, tasks) == Err(ResolveEntries(vs, declared, tasks).error)
    decreases vs, 0
  {
    hide RefValue, References;
    if Resolve(vs[0].value, declared, tasks).Err? {
      ErrorOfAReference(vs[0].value, declared, tasks);
      k := 0;
      r :| r in References(vs[0].value)
        && RefValue(r.0, r.1, declared, tasks) == Err(Resolve(vs[0].value, declared, tasks).error);
    } else {
      k, r := ErrorInEntries(vs[1..], declared, tasks);
      k := k + 1;
    }
  }

  /** The errors of the whole operation: the substituted payload is no object, or an object that is too large, or else
      the error is that of one of the references. */
  lemma PayloadErrors(task: PlannedTask, tasks: Tasks, size: Json -> nat)
    ensures var r := ResolvePayload(task, tasks, size);
      && (r == Err(NotAnObject) <==> exists w :: Replaces(task.payload, w, Declared(task), tasks) && !w.Dict?)
      && (r == Err(TooLarge) <==> exists w :: Replaces(task.payload, w, Declared(task), tasks) && w.Dict? && size(w) > 65536)
      && (r.Err? && r.error != NotAnObject && r.error != TooLarge ==>
            exists f :: f in References(task.payload) && RefValue(f.0, f.1, Declared(task), tasks) == r)
  {
    hide Replaces, Resolve, References;
    var declared := Declared(task);
    ResolveMeaning(task.payload, declared, tasks);
    var r := Resolve(task.payload, declared, tasks);
    if r.Ok? {
      assert Replaces(task.payload, r.value, declared, tasks);
    } else {
      ErrorOfAReference(task.payload, declared, tasks);
      var f :| f in References(task.payload) && RefValue(f.0, f.1, declared, tasks) == Err(r.error);
      assert r.error != NotAnObject && r.error != TooLarge;
    }
  }
}
