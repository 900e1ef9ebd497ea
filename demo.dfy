/** The demo component: routines that drive the Lua state through fixed
    sequences of C-API calls, the host functions it registers, the
    userdata-to-object cache and the close-once teardown. */
module Demo {
  import opened LuaApi
  import opened Events

  // ---------------------------------------------------------------------
  // Script texts (whitespace normalised)

  const HelloChunk: string := "return 'hello, i am from lua'"
  const AddSubChunk: string := "return function(a,b) return a + b, a-b; end"
  const GlobalAddSubChunk: string := "function addSub(a,b) return a + b, a-b; end"
  const PrintChunk: string := "print('hello','csharp')"
  const DebugLogChunk: string := "Debug.Log('call debug.log from lua')"
  const GameObjectChunk: string :=
    "Debug.Log('CallGameObjectSetActiveInLua') local go = GameObject('GO') print(type(go)) go:SetActive(false);"
  const EventManagerChunk: string :=
    "EventManager.Register(function(value) print('callback invoked ==>',tostring(value)) end)"

  // ---------------------------------------------------------------------
  // Specification functions

  /** The one slot DoLuaCode leaves: the chunk's first result (nil if it
      returned none), the runtime error object, or the load error message. */
  function CodeSlot(load: LoadOutcome, run: CallOutcome): Value {
    match load
    case LoadFailed(_, msg) => Str(msg)
    case Compiled =>
      match run
      case Returned(vs) => Adjust(vs, 1)[0]
      case Raised(_, e) => e
  }

  function ChunkCalls(code: string, load: LoadOutcome): seq<Call> {
    if load.Compiled? then [Call(Chunk(code), [])] else []
  }

  predicate Succeeds(load: LoadOutcome, run: CallOutcome) {
    load.Compiled? && run.Returned?
  }

  /** The text Print builds: each argument's string form (nothing for a
      value without one) followed by one space. */
  function JoinArgs(args: seq<Value>): string {
    if args == [] then ""
    else JoinArgs(args[..|args| - 1]) + Piece(args[|args| - 1])
  }

  function Piece(v: Value): string {
    (if Text(v).Some? then Text(v).value else "") + " "
  }

  /** The stack after lua_tostring has been applied to every slot. */
  function StringifyAll(s: seq<Value>): (r: seq<Value>)
    ensures |r| == |s|
    ensures forall i :: 0 <= i < |s| ==> r[i] == Stringified(s[i])
  {
    seq(|s|, i requires 0 <= i < |s| => Stringified(s[i]))
  }

  /** Joining two runs of arguments concatenates their texts. */
  lemma {:induction false} JoinArgsAppend(a: seq<Value>, b: seq<Value>)
    ensures JoinArgs(a + b) == JoinArgs(a) + JoinArgs(b)
  {
    if b == [] {
      assert a + b == a;
    } else {
      var init := b[..|b| - 1];
      var last := b[|b| - 1];
      assert b == init + [last];
      calc {
        JoinArgs(a + b);
        { ConcatAssoc(a, init, [last]); }
        JoinArgs((a + init) + [last]);
        { JoinArgsSnoc(a + init, last); }
        JoinArgs(a + init) + Piece(last);
        { JoinArgsAppend(a, init); }
        (JoinArgs(a) + JoinArgs(init)) + Piece(last);
        { ConcatAssoc(JoinArgs(a), JoinArgs(init), Piece(last)); }
        JoinArgs(a) + (JoinArgs(init) + Piece(last));
        { JoinArgsSnoc(init, last); }
        JoinArgs(a) + JoinArgs(b);
      }
    }
  }

  /** One more argument adds its piece at the end. */
  lemma JoinArgsSnoc(s: seq<Value>, v: Value)
    ensures JoinArgs(s + [v]) == JoinArgs(s) + Piece(v)
  {
  }

  /** Every argument contributes at least its space, and a non-empty line
      ends with a space. */
  lemma {:induction false} JoinArgsShape(args: seq<Value>)
    ensures |JoinArgs(args)| >= |args|
    ensures args != [] ==> JoinArgs(args)[|JoinArgs(args)| - 1] == ' '
    ensures (forall i :: 0 <= i < |args| ==> Text(args[i]).None?) ==> JoinArgs(args) == seq(|args|, _ => ' ')
  {
    if args != [] {
      JoinArgsShape(args[..|args| - 1]);
    }
  }

  /** Printing the stack that a print left gives the same line again: the
      in-place conversion of numbers does not change their text. */
  lemma {:induction false} JoinArgsStringified(args: seq<Value>)
    ensures JoinArgs(StringifyAll(args)) == JoinArgs(args)
  {
    if args != [] {
      var n := |args| - 1;
      JoinArgsStringified(args[..n]);
      assert StringifyAll(args)[..n] == StringifyAll(args[..n]);
    }
  }

  /** The fields that the foreach loops of the source add to a table: each
      name mapped to its host function, later entries overriding earlier. */
  function FillFunctions(base: map<Value, Value>, entries: seq<(string, HostFunc)>): map<Value, Value> {
    if entries == [] then base
    else FillFunctions(base, entries[..|entries| - 1])[Str(entries[|entries| - 1].0) := CFunction(entries[|entries| - 1].1)]
  }

  function FuncTable(entries: seq<(string, HostFunc)>): map<Value, Value> {
    FillFunctions(map[], entries)
  }

  /** A null dictionary adds nothing. */
  function Entries(d: Option<seq<(string, HostFunc)>>): seq<(string, HostFunc)> {
    if d.Some? then d.value else []
  }

  /** Dictionary keys are distinct. */
  predicate DistinctNames(entries: seq<(string, HostFunc)>) {
    forall i, j :: 0 <= i < j < |entries| ==> entries[i].0 != entries[j].0
  }

  /** The table has one key per dictionary name and no other key. */
  lemma {:induction false} FuncTableKeys(entries: seq<(string, HostFunc)>)
    ensures FuncTable(entries).Keys == set i | 0 <= i < |entries| :: Str(entries[i].0)
  {
    if entries != [] {
      var n := |entries| - 1;
      var init := entries[..n];
      FuncTableKeys(init);
      var all := set i | 0 <= i < |entries| :: Str(entries[i].0);
      var before := set i | 0 <= i < n :: Str(init[i].0);
      assert all == before + {Str(entries[n].0)} by {
        forall x | x in all
          ensures x in before + {Str(entries[n].0)}
        {
          var i :| 0 <= i < |entries| && x == Str(entries[i].0);
          if i < n { assert x == Str(init[i].0); }
        }
      }
    }
  }

  /** With distinct names, each name is mapped to its own function. */
  lemma {:induction false} FuncTableLookup(entries: seq<(string, HostFunc)>)
    requires DistinctNames(entries)
    ensures forall i :: 0 <= i < |entries| ==>
              Str(entries[i].0) in FuncTable(entries) && FuncTable(entries)[Str(entries[i].0)] == CFunction(entries[i].1)
  {
    if entries != [] {
      var n := |entries| - 1;
      var init := entries[..n];
      assert DistinctNames(init);
      FuncTableLookup(init);
      forall i | 0 <= i < |entries|
        ensures Str(entries[i].0) in FuncTable(entries) && FuncTable(entries)[Str(entries[i].0)] == CFunction(entries[i].1)
      {
        if i < n {
          assert init[i] == entries[i];
          assert Str(entries[i].0) != Str(entries[n].0);
        }
      }
    }
  }

  /** The fields a class metatable gets: __call only for a constructor. */
  function CallField(ctor: Option<HostFunc>): (r: map<Value, Value>)
    ensures Str("__call") in r <==> ctor.Some?
    ensures ctor.Some? ==> r == map[Str("__call") := CFunction(ctor.value)]
    ensures ctor.None? ==> r == map[]
  {
    if ctor.Some? then map[Str("__call") := CFunction(ctor.value)] else map[]
  }

  /** The shape a class registration leaves: a global class table with the
      static functions and a metatable that has __call for the constructor,
      and a named metatable in the registry with __gc = gc and an __index
      table of the member functions. */
  ghost predicate ClassRegistered(L: LuaState, className: string, statics: seq<(string, HostFunc)>,
                                  ctor: Option<HostFunc>, members: seq<(string, HostFunc)>)
    reads L
  {
    && className in L.globals && L.globals[className].TableRef?
    && var c := L.globals[className].t;
    && c < |L.heap| && L.heap[c].fields == FuncTable(statics)
    && L.heap[c].meta.Some? && L.heap[c].meta.value < |L.heap|
    && var cm := L.heap[c].meta.value;
    && L.heap[cm] == Table(CallField(ctor), None)
    && Str(className) in L.registry && L.registry[Str(className)].TableRef?
    && var mt := L.registry[Str(className)].t;
    && mt < |L.heap|
    && Str("__gc") in L.heap[mt].fields && L.heap[mt].fields[Str("__gc")] == CFunction(GcFunc)
    && Str("__index") in L.heap[mt].fields && L.heap[mt].fields[Str("__index")].TableRef?
    && var ix := L.heap[mt].fields[Str("__index")].t;
    && ix < |L.heap| && L.heap[ix] == Table(FuncTable(members), None)
  }

  /** The exact heap a class registration leaves, from heap h0 and registry
      r0: the class table and its metatable appended, then the instance
      metatable (a new one, or the existing one) given __gc and __index, and
      last the new __index table; every other table is as it was. */
  predicate ClassHeap(h0: seq<Table>, r0: map<Value, Value>, heap: seq<Table>, registry: map<Value, Value>,
                      className: string, statics: seq<(string, HostFunc)>, ctor: Option<HostFunc>,
                      members: seq<(string, HostFunc)>)
  {
    var c := |h0|;
    var existed := Str(className) in r0;
    && (existed ==> r0[Str(className)].TableRef? && r0[Str(className)].t < c)
    && |heap| == c + (if existed then 3 else 4)
    && heap[c] == Table(FuncTable(statics), Some(c + 1))
    && heap[c + 1] == Table(CallField(ctor), None)
    && heap[|heap| - 1] == Table(FuncTable(members), None)
    && Str(className) in registry
    && registry[Str(className)] == (if existed then r0[Str(className)] else TableRef(c + 2))
    && var mt := registry[Str(className)].t;
    && var base := if existed then h0[mt] else Table(map[Str("__name") := Str(className)], None);
    && heap[mt] == Table(base.fields[Str("__gc") := CFunction(GcFunc)][Str("__index") := TableRef(|heap| - 1)], base.meta)
    && (forall t :: 0 <= t < c && TableRef(t) != Lookup(r0, Str(className)) ==> heap[t] == h0[t])
  }

  /** What the exact heap implies: the class metatable, the instance
      metatable and the __index table are three different tables, the class
      metatable and the __index table are new, a new instance metatable is
      named after the class, and an existing one keeps its other fields. */
  lemma ClassHeapTables(h0: seq<Table>, r0: map<Value, Value>, heap: seq<Table>, registry: map<Value, Value>,
                        className: string, statics: seq<(string, HostFunc)>, ctor: Option<HostFunc>,
                        members: seq<(string, HostFunc)>)
    requires ClassHeap(h0, r0, heap, registry, className, statics, ctor, members)
    ensures var mt := registry[Str(className)].t;
            var ix := |heap| - 1;
            && heap[|h0|].meta == Some(|h0| + 1)
            && heap[mt].fields[Str("__index")] == TableRef(ix)
            && |h0| + 1 != mt && mt != ix && |h0| + 1 != ix
            && |h0| + 1 < ix && |h0| <= ix
            && (Str(className) !in r0 ==> mt >= |h0| && heap[mt].fields[Str("__name")] == Str(className))
            && (Str(className) in r0 ==>
                  forall k :: k in h0[mt].fields && k != Str("__gc") && k != Str("__index") ==>
                    k in heap[mt].fields && heap[mt].fields[k] == h0[mt].fields[k])
  {
  }

  /** A registry entry the class registration can extend: absent, or a table. */
  predicate MetatableSlotOk(registry: map<Value, Value>, className: string) {
    Str(className) in registry ==> registry[Str(className)].TableRef?
  }

  /** CallLuaFunc pops two slots even after a failed call; this says when
      that stays within the caller's stack. */
  predicate PopsWithinStack(depth: nat, load: LoadOutcome, run: CallOutcome, call: CallOutcome) {
    (Succeeds(load, run) && call.Raised?) ==> depth >= 1
  }

  /** A script run by DoLuaCode: what loading and then calling it does. */
  datatype Script = Script(load: LoadOutcome, run: CallOutcome)

  /** A script outcome that refers to no table or userdata, so that it suits
      every state. */
  predicate Plain(s: Script) {
    LoadOutcomeOk(s.load) && CallOutcomeOk(s.run, 0, 0)
  }

  lemma PlainSuits(o: CallOutcome, tables: nat, blocks: nat)
    requires CallOutcomeOk(o, 0, 0)
    ensures CallOutcomeOk(o, tables, blocks)
  {
  }

  function Ran(s: Script): bool { Succeeds(s.load, s.run) }

  /** The slots Start leaves on the stack: the hello test pops its result,
      CallLuaFunc is balanced on success and drops one slot when its call
      fails, CallLuaGlobalFunc keeps its chunk's result unless its call
      fails, and every other DoLuaCode caller leaves its slot. */
  function StartDepth(test: Script, addSub: Script, addSubCall: CallOutcome,
                      globalAddSub: Script, globalCall: CallOutcome): int
  {
    var d1 := if Ran(test) then 0 else 1;
    var d2 := if !Ran(addSub) then d1 + 1 else if addSubCall.Returned? then d1 else d1 - 1;
    var d3 := d2 + (if Ran(globalAddSub) && globalCall.Raised? then 0 else 1);
    d3 + 4
  }

  /** The input on which CallLuaFunc pops below the caller's frame: in
      Start the hello test has popped its result, so the stack is empty when
      CallLuaFunc runs. The chunk returns its closure; calling that closure
      on two numbers can then fail only by running out of memory, and the
      failed call leaves only its error object for the two pops. */
  lemma CallLuaFuncUnderflowInput()
    ensures var test := Script(Compiled, Returned([Str("hello, i am from lua")]));
            var depth := if Ran(test) then 0 else 1;
            depth == 0 && !PopsWithinStack(depth, Compiled, Returned([Closure(0)]), Raised(ErrMem, Str("not enough memory")))
  {
  }

  datatype GameObject = GameObject(name: Option<string>, active: bool)

  datatype HostException = KeyNotFound

  /** How a host function ends: with a count of results, or by throwing. */
  datatype HostReturn = Results(count: nat) | Threw(exception: HostException)

  // ---------------------------------------------------------------------
  // The component

  class UnityLuaInteractDemo {
    var globalL: LuaState?               // _globalL
    var objectCache: map<Handle, nat>    // _objectCache: handle -> index into gameObjects
    var gameObjects: seq<GameObject>     // the host objects the constructor made
    const events: EventManager

    /** Every cached handle is a live block of L and names its own game
        object. */
    ghost predicate CacheValid(L: LuaState)
      reads this, L
    {
      && (forall h :: h in objectCache ==> 1 <= h <= |L.userdata| && objectCache[h] < |gameObjects|)
      && (forall h1, h2 :: h1 in objectCache && h2 in objectCache && h1 != h2 ==> objectCache[h1] != objectCache[h2])
    }

    constructor (events: EventManager)
      ensures globalL == null && objectCache == map[] && gameObjects == [] && this.events == events
    {
      globalL := null;
      objectCache := map[];
      gameObjects := [];
      this.events := events;
    }

    /** Loads `code` and, only if that succeeded, calls it for one result.
        Exactly one slot is left on every path. */
    method DoLuaCode(L: LuaState, code: string, load: LoadOutcome, run: CallOutcome) returns (ok: bool)
      requires L.Open() && LoadOutcomeOk(load) && CallOutcomeOk(run, |L.heap|, |L.userdata|)
      modifies L`stack, L`trace
      ensures L.Open()
      ensures ok <==> Succeeds(load, run)
      ensures L.stack == old(L.stack) + [CodeSlot(load, run)]
      ensures L.trace == old(L.trace) + ChunkCalls(code, load)
    {
      var status := L.LoadBuffer(code, load);
      if status == 0 {
        ghost var loaded := L.stack;
        var r := L.PCall(0, 1, 0, run);
        assert loaded[|loaded| - 1] == Chunk(code) && loaded[|loaded|..] == [];
        ok := r == 0;
      } else {
        ok := false;
      }
    }

    /** Runs a chunk and, on success, reads and pops its result. */
    method DoLuaCodeTest(L: LuaState, load: LoadOutcome, run: CallOutcome)
      requires L.Open() && LoadOutcomeOk(load) && CallOutcomeOk(run, |L.heap|, |L.userdata|)
      modifies L`stack, L`trace
      ensures L.Open()
      ensures L.stack == old(L.stack) + (if Succeeds(load, run) then [] else [CodeSlot(load, run)])
      ensures L.trace == old(L.trace) + ChunkCalls(HelloChunk, load)
    {
      var ok := DoLuaCode(L, HelloChunk, load, run);
      if ok {
        var _ := L.ToString(-1);
        L.Pop(1);
      }
    }

    /** Pushes the arguments 101 and 202 and calls the function below them
        for two results, returning pcall's status. */
    static method CallWithArguments(L: LuaState, call: CallOutcome) returns (status: int)
      requires L.Open() && |L.stack| >= 1 && CallOutcomeOk(call, |L.heap|, |L.userdata|)
      modifies L`stack, L`trace
      ensures L.Open()
      ensures (status == 0) <==> call.Returned?
      ensures var base := |old(L.stack)| - 1;
              && L.trace == old(L.trace) + [Call(old(L.stack)[base], [Float("101.0"), Float("202.0")])]
              && L.stack == old(L.stack)[..base] + (if call.Returned? then Adjust(call.values, 2) else [call.error])
    {
      L.PushNumber("101.0");
      L.PushNumber("202.0");
      ghost var pushed := L.stack;
      status := L.PCall(2, 2, 0, call);
      assert pushed[|pushed| - 2..] == [Float("101.0"), Float("202.0")];
    }

    /** Gets a function from a chunk, calls it with 101 and 202 for two
        results and pops two slots, without checking the call's status. */
    method CallLuaFunc(L: LuaState, load: LoadOutcome, run: CallOutcome, call: CallOutcome)
      requires L.Open() && LoadOutcomeOk(load)
      requires CallOutcomeOk(run, |L.heap|, |L.userdata|) && CallOutcomeOk(call, |L.heap|, |L.userdata|)
      requires PopsWithinStack(|L.stack|, load, run, call)
      modifies L`stack, L`trace
      ensures L.Open()
      ensures !Succeeds(load, run) ==>
                L.stack == old(L.stack) + [CodeSlot(load, run)] && L.trace == old(L.trace) + ChunkCalls(AddSubChunk, load)
      ensures Succeeds(load, run) ==>
                L.trace == old(L.trace) + [Call(Chunk(AddSubChunk), []),
                                           Call(CodeSlot(load, run), [Float("101.0"), Float("202.0")])]
      ensures Succeeds(load, run) && call.Returned? ==> L.stack == old(L.stack)
      ensures Succeeds(load, run) && call.Raised? ==> L.stack == old(L.stack)[..|old(L.stack)| - 1]
    {
      var ok := DoLuaCode(L, AddSubChunk, load, run);
      if ok {
        ghost var t1 := L.trace;
        var _ := CallWithArguments(L, call);
        ConcatAssoc(old(L.trace), [Call(Chunk(AddSubChunk), [])], L.trace[|t1|..]);
        L.Pop(2);
      }
    }

    /** CallLuaFunc with the call's status checked: after a failure only the
        error object is popped, so no slot of the caller is touched. */
    method CallLuaFuncChecked(L: LuaState, load: LoadOutcome, run: CallOutcome, call: CallOutcome)
      requires L.Open() && LoadOutcomeOk(load)
      requires CallOutcomeOk(run, |L.heap|, |L.userdata|) && CallOutcomeOk(call, |L.heap|, |L.userdata|)
      modifies L`stack, L`trace
      ensures L.Open()
      ensures !Succeeds(load, run) ==> L.stack == old(L.stack) + [CodeSlot(load, run)]
      ensures Succeeds(load, run) ==> L.stack == old(L.stack)
      ensures L.trace == old(L.trace) + ChunkCalls(AddSubChunk, load) +
                         (if Succeeds(load, run) then [Call(CodeSlot(load, run), [Float("101.0"), Float("202.0")])] else [])
    {
      var ok := DoLuaCode(L, AddSubChunk, load, run);
      if ok {
        ghost var t1 := L.trace;
        var status := CallWithArguments(L, call);
        ConcatAssoc(old(L.trace), [Call(Chunk(AddSubChunk), [])], L.trace[|t1|..]);
        if status == 0 {
          L.Pop(2);
        } else {
          L.Pop(1);
        }
      }
    }

    /** Runs a chunk, then calls the global addSub with 101 and 202 for two
        results and pops two slots; the chunk's own result stays. */
    method CallLuaGlobalFunc(L: LuaState, load: LoadOutcome, run: CallOutcome, call: CallOutcome)
      requires L.Open() && LoadOutcomeOk(load)
      requires CallOutcomeOk(run, |L.heap|, |L.userdata|) && CallOutcomeOk(call, |L.heap|, |L.userdata|)
      modifies L`stack, L`trace
      ensures L.Open()
      ensures !Succeeds(load, run) ==>
                L.stack == old(L.stack) + [CodeSlot(load, run)] && L.trace == old(L.trace) + ChunkCalls(GlobalAddSubChunk, load)
      ensures Succeeds(load, run) ==>
                L.trace == old(L.trace) + [Call(Chunk(GlobalAddSubChunk), []),
                                           Call(if "addSub" in L.globals then L.globals["addSub"] else Nil,
                                                [Float("101.0"), Float("202.0")])]
      ensures Succeeds(load, run) && call.Returned? ==> L.stack == old(L.stack) + [CodeSlot(load, run)]
      ensures Succeeds(load, run) && call.Raised? ==> L.stack == old(L.stack)
    {
      var ok := DoLuaCode(L, GlobalAddSubChunk, load, run);
      if ok {
        ghost var t1 := L.trace;
        L.GetGlobal("addSub");
        var _ := CallWithArguments(L, call);
        ConcatAssoc(old(L.trace), [Call(Chunk(GlobalAddSubChunk), [])], L.trace[|t1|..]);
        L.Pop(2);
      }
    }

    /** The host print: joins the string forms of arguments 1..gettop, each
        followed by a space, and returns no results. */
    static method Print(L: LuaState) returns (n: int, line: string)
      requires L.Open()
      modifies L`stack
      ensures L.Open()
      ensures n == 0
      ensures line == JoinArgs(old(L.stack))
      ensures L.stack == StringifyAll(old(L.stack))
    {
      var count := L.GetTop();
      line := "";
      var i := 1;
      while i <= count
        invariant 1 <= i <= count + 1
        invariant L.Open() && |L.stack| == count
        invariant forall k :: 0 <= k < count ==> L.stack[k] == if k < i - 1 then Stringified(old(L.stack)[k]) else old(L.stack)[k]
        invariant line == JoinArgs(old(L.stack)[..i - 1])
      {
        var t := L.ToString(i);
        line := line + (if t.Some? then t.value else "");
        line := line + " ";
        assert old(L.stack)[..i][..i - 1] == old(L.stack)[..i - 1];
        i := i + 1;
      }
      assert old(L.stack)[..i - 1] == old(L.stack);
      n := 0;
    }

    /** Pushes a host function and stores it as the global `name`. */
    static method RegisterCSFunction(L: LuaState, fn: HostFunc, globalLuaName: string)
      requires L.Open()
      modifies L`stack, L`globals
      ensures L.Open()
      ensures L.stack == old(L.stack)
      ensures L.globals == old(L.globals)[globalLuaName := CFunction(fn)]
    {
      L.PushCFunction(fn);
      L.SetGlobal(globalLuaName);
    }

    /** Registers print, then runs a chunk that calls it. */
    method LuaCallStaticCSFunc(L: LuaState, load: LoadOutcome, run: CallOutcome)
      requires L.Open() && LoadOutcomeOk(load) && CallOutcomeOk(run, |L.heap|, |L.userdata|)
      modifies L`stack, L`globals, L`trace
      ensures L.Open()
      ensures L.globals == old(L.globals)["print" := CFunction(PrintFunc)]
      ensures L.stack == old(L.stack) + [CodeSlot(load, run)]
      ensures L.trace == old(L.trace) + ChunkCalls(PrintChunk, load)
    {
      RegisterCSFunction(L, PrintFunc, "print");
      var _ := DoLuaCode(L, PrintChunk, load, run);
    }

    /** The host Debug.Log: returns the text of argument 1 (none if it has
        no string form) and no results. */
    static method DebugLog(L: LuaState) returns (n: int, msg: Option<string>)
      requires L.Open()
      modifies L`stack
      ensures L.Open()
      ensures n == 0
      ensures |old(L.stack)| == 0 ==> msg == None && L.stack == old(L.stack)
      ensures |old(L.stack)| >= 1 ==>
                msg == Text(old(L.stack)[0]) && L.stack == old(L.stack)[0 := Stringified(old(L.stack)[0])]
    {
      msg := L.ToString(1);
      n := 0;
    }

    /** Makes the global table Debug with the single field Log. */
    method RegisterDebugClassToLua(L: LuaState)
      requires L.Open()
      modifies L`stack, L`heap, L`globals
      ensures L.Open()
      ensures L.stack == old(L.stack)
      ensures L.heap == old(L.heap) + [Table(map[Str("Log") := CFunction(DebugLogFunc)], None)]
      ensures L.globals == old(L.globals)["Debug" := TableRef(|old(L.heap)|)]
    {
      L.CreateTable(0, 1);
      L.PushString("Log");
      L.PushCFunction(DebugLogFunc);
      L.SetTable(-3);
      L.SetGlobal("Debug");
    }

    method CallDebugLog(L: LuaState, load: LoadOutcome, run: CallOutcome)
      requires L.Open() && LoadOutcomeOk(load) && CallOutcomeOk(run, |L.heap|, |L.userdata|)
      modifies L`stack, L`trace
      ensures L.Open()
      ensures L.stack == old(L.stack) + [CodeSlot(load, run)]
      ensures L.trace == old(L.trace) + ChunkCalls(DebugLogChunk, load)
    {
      var _ := DoLuaCode(L, DebugLogChunk, load, run);
    }

    /** The GameObject constructor: makes a game object named by argument 1,
        a fresh userdata with the "GameObject" metatable, caches the pair
        (the new handle is never already cached) and returns 1 result.
        Reached through __call, argument 1 is the class table itself, so a
        call `GameObject('GO')` gives no text there and the object no name;
        the model keeps that. */
    method GameObjectConstructor(L: LuaState) returns (n: int)
      requires L.Open() && CacheValid(L) && MetatableSlotOk(L.registry, "GameObject")
      modifies this`objectCache, this`gameObjects, L`stack, L`heap, L`userdata
      ensures L.Open() && CacheValid(L)
      ensures L.heap == old(L.heap)
      ensures n == 1
      ensures var h := |old(L.userdata)| + 1;
              && h !in old(objectCache)
              && objectCache == old(objectCache)[h := |old(gameObjects)|]
              && L.userdata == old(L.userdata) + [if Str("GameObject") in L.registry then Some(L.registry[Str("GameObject")].t) else None]
              && L.stack == (if |old(L.stack)| >= 1 then old(L.stack)[0 := Stringified(old(L.stack)[0])] else old(L.stack)) + [Userdata(h)]
      ensures gameObjects == old(gameObjects) + [GameObject(if |old(L.stack)| >= 1 then Text(old(L.stack)[0]) else None, true)]
    {
      var name := L.ToString(1);
      gameObjects := gameObjects + [GameObject(name, true)];
      var udptr := L.NewUserdata(4);
      L.SetMetatableByName("GameObject");
      assert udptr !in objectCache;
      objectCache := objectCache[udptr := |gameObjects| - 1];
      n := 1;
    }

    /** GameObject:SetActive(active): looks up argument 1 in the cache
        (throwing when it is missing) and sets the object's active flag from
        the truth of argument 2. The cache never changes. */
    method GameObjectSetActive(L: LuaState) returns (r: HostReturn)
      requires L.Open() && CacheValid(L)
      modifies this`gameObjects
      ensures CacheValid(L)
      ensures objectCache == old(objectCache)
      ensures var h := HandleAt(L.stack, 1);
              && (h in objectCache ==>
                    r == Results(0) &&
                    gameObjects == old(gameObjects)[objectCache[h] := old(gameObjects)[objectCache[h]].(active := ValidIndex(2, |L.stack|) && Truthy(L.stack[1]))])
              && (h !in objectCache ==> r == Threw(KeyNotFound) && gameObjects == old(gameObjects))
    {
      var udptr := L.ToUserdata(1);
      var active := L.ToBoolean(2);
      if udptr in objectCache {
        var go := objectCache[udptr];
        gameObjects := gameObjects[go := gameObjects[go].(active := active)];
        r := Results(0);
      } else {
        r := Threw(KeyNotFound);
      }
    }

    /** The __gc metamethod: removes argument 1 from the cache when it is
        there and reports whether it was; never fails, returns 0 results. */
    method Gc(L: LuaState) returns (n: int, removed: bool)
      requires L.Open() && CacheValid(L)
      modifies this`objectCache
      ensures CacheValid(L)
      ensures n == 0
      ensures removed <==> HandleAt(L.stack, 1) in old(objectCache)
      ensures objectCache == old(objectCache) - {HandleAt(L.stack, 1)}
    {
      var udptr := L.ToUserdata(1);
      removed := udptr in objectCache;
      objectCache := objectCache - {udptr};
      n := 0;
    }

    /** Registers GameObject: a global class table whose metatable calls the
        constructor, and the "GameObject" instance metatable with __gc and an
        __index table holding SetActive. */
    method RegisterGameObjectToLua(L: LuaState)
      requires L.Open() && MetatableSlotOk(L.registry, "GameObject")
      modifies L`stack, L`heap, L`globals, L`registry, L`userdata
      ensures L.Open()
      ensures L.stack == old(L.stack) && L.userdata == old(L.userdata)
      ensures ClassRegistered(L, "GameObject", [], Some(GameObjectConstructorFunc), [("SetActive", GameObjectSetActiveFunc)])
      ensures L.globals == old(L.globals)["GameObject" := TableRef(|old(L.heap)|)]
      ensures L.registry - {Str("GameObject")} == old(L.registry) - {Str("GameObject")}
      ensures Str("GameObject") !in old(L.registry) ==>
                L.heap[L.registry[Str("GameObject")].t].fields.Keys == {Str("__name"), Str("__gc"), Str("__index")}
      ensures forall t :: 0 <= t < |old(L.heap)| && TableRef(t) != Lookup(old(L.registry), Str("GameObject")) ==>
                L.heap[t] == old(L.heap)[t]
      ensures ClassHeap(old(L.heap), old(L.registry), L.heap, L.registry, "GameObject",
                        [], Some(GameObjectConstructorFunc), [("SetActive", GameObjectSetActiveFunc)])
    {
      // These lines run the primitives of RegisterCSClass in the same order,
      // with no static functions, the constructor and one member function.
      RegisterCSClass(L, "GameObject", None, Some(GameObjectConstructorFunc), Some([("SetActive", GameObjectSetActiveFunc)]));
    }

    method CallGameObjectSetActiveInLua(L: LuaState, load: LoadOutcome, run: CallOutcome)
      requires L.Open() && LoadOutcomeOk(load) && CallOutcomeOk(run, |L.heap|, |L.userdata|)
      modifies L`stack, L`trace
      ensures L.Open()
      ensures L.stack == old(L.stack) + [CodeSlot(load, run)]
      ensures L.trace == old(L.trace) + ChunkCalls(GameObjectChunk, load)
    {
      var _ := DoLuaCode(L, GameObjectChunk, load, run);
    }

    /** `lua_pushstring(name); lua_pushcfunction(fn); lua_settable(-3)`:
        sets one field of the table on top. */
    static method SetFunctionField(L: LuaState, name: string, fn: HostFunc)
      requires L.Open() && |L.stack| >= 1 && L.stack[|L.stack| - 1].TableRef?
      modifies L`stack, L`heap
      ensures L.Open()
      ensures L.stack == old(L.stack)
      ensures var t := L.stack[|L.stack| - 1].t;
              L.heap == old(L.heap)[t := Table(old(L.heap)[t].fields[Str(name) := CFunction(fn)], old(L.heap)[t].meta)]
    {
      L.PushString(name);
      L.PushCFunction(fn);
      L.SetTable(-3);
    }

    /** The foreach loop that adds `entries` as fields of the table on top. */
    static method SetFunctionFields(L: LuaState, entries: seq<(string, HostFunc)>)
      requires L.Open() && |L.stack| >= 1 && L.stack[|L.stack| - 1].TableRef?
      modifies L`stack, L`heap
      ensures L.Open()
      ensures L.stack == old(L.stack)
      ensures var t := L.stack[|L.stack| - 1].t;
              L.heap == old(L.heap)[t := Table(FillFunctions(old(L.heap)[t].fields, entries), old(L.heap)[t].meta)]
    {
      var t := L.stack[|L.stack| - 1].t;
      var i := 0;
      while i < |entries|
        invariant 0 <= i <= |entries|
        invariant L.Open() && L.stack == old(L.stack)
        invariant L.heap == old(L.heap)[t := Table(FillFunctions(old(L.heap)[t].fields, entries[..i]), old(L.heap)[t].meta)]
      {
        SetFunctionField(L, entries[i].0, entries[i].1);
        assert entries[..i + 1][..i] == entries[..i];
        i := i + 1;
      }
      assert entries[..i] == entries;
    }

    /** Lines creating the class table: static functions, a metatable with
        __call when there is a constructor, stored as the global className. */
    static method CreateClassTable(L: LuaState, className: string, statics: seq<(string, HostFunc)>,
                                   ctor: Option<HostFunc>)
      requires L.Open()
      modifies L`stack, L`heap, L`globals, L`userdata
      ensures L.Open()
      ensures L.stack == old(L.stack) && L.userdata == old(L.userdata)
      ensures var c := |old(L.heap)|;
              L.heap == old(L.heap) + [Table(FuncTable(statics), Some(c + 1)), Table(CallField(ctor), None)]
      ensures L.globals == old(L.globals)[className := TableRef(|old(L.heap)|)]
    {
      ghost var h0 := L.heap;
      ghost var s0 := L.stack;
      var c := |L.heap|;
      L.CreateTable(0, 1);
      SetFunctionFields(L, statics);
      assert L.heap == h0 + [Table(FuncTable(statics), None)];
      L.CreateTable(0, 1);
      if ctor.Some? {
        SetFunctionField(L, "__call", ctor.value);
      }
      assert L.heap == h0 + [Table(FuncTable(statics), None), Table(CallField(ctor), None)];
      assert L.stack == s0 + [TableRef(c), TableRef(c + 1)];
      L.SetMetatable(-2);
      assert L.stack == s0 + [TableRef(c)];
      L.SetGlobal(className);
    }

    /** Lines creating the instance metatable registry[className]: __gc = gc
        and an __index table of the member functions; the metatable is
        popped at the end. */
    static method CreateInstanceMetatable(L: LuaState, className: string, members: seq<(string, HostFunc)>)
      requires L.Open() && MetatableSlotOk(L.registry, className)
      modifies L`stack, L`heap, L`registry
      ensures L.Open()
      ensures L.stack == old(L.stack)
      ensures Str(className) in L.registry && L.registry[Str(className)].TableRef?
      ensures L.registry == old(L.registry)[Str(className) := L.registry[Str(className)]]
      ensures L.registry[Str(className)] == if Str(className) in old(L.registry) then old(L.registry)[Str(className)]
                                            else TableRef(|old(L.heap)|)
      ensures |L.heap| == |old(L.heap)| + (if Str(className) in old(L.registry) then 1 else 2)
      ensures L.heap[|L.heap| - 1] == Table(FuncTable(members), None)
      ensures var mt := L.registry[Str(className)].t;
              var base := if Str(className) in old(L.registry) then old(L.heap)[mt]
                          else Table(map[Str("__name") := Str(className)], None);
              L.heap[mt] == Table(base.fields[Str("__gc") := CFunction(GcFunc)][Str("__index") := TableRef(|L.heap| - 1)], base.meta)
      ensures forall t :: 0 <= t < |old(L.heap)| && TableRef(t) != Lookup(old(L.registry), Str(className)) ==>
                L.heap[t] == old(L.heap)[t]
    {
      var _ := L.NewMetatable(className);
      SetFunctionField(L, "__gc", GcFunc);
      SetIndexTable(L, members);
      L.Pop(1);
    }

    /** Lines adding the __index field: a new table of the member functions
        stored under "__index" in the table on top. */
    static method SetIndexTable(L: LuaState, members: seq<(string, HostFunc)>)
      requires L.Open() && |L.stack| >= 1 && L.stack[|L.stack| - 1].TableRef?
      modifies L`stack, L`heap
      ensures L.Open()
      ensures L.stack == old(L.stack)
      ensures var mt := L.stack[|L.stack| - 1].t;
              L.heap == old(L.heap)[mt := Table(old(L.heap)[mt].fields[Str("__index") := TableRef(|old(L.heap)|)], old(L.heap)[mt].meta)]
                                   + [Table(FuncTable(members), None)]
    {
      ghost var h0 := L.heap;
      ghost var s0 := L.stack;
      var c := |L.heap|;
      L.PushString("__index");
      L.CreateTable(0, 1);
      SetFunctionFields(L, members);
      assert L.heap == h0 + [Table(FuncTable(members), None)];
      assert L.stack == s0 + [Str("__index"), TableRef(c)];
      L.SetTable(-3);
    }

    /** The generic class registration; leaves the stack as it found it. */
    static method RegisterCSClass(L: LuaState, className: string, staticFuncs: Option<seq<(string, HostFunc)>>,
                                  ctor: Option<HostFunc>, memberFuncs: Option<seq<(string, HostFunc)>>)
      requires L.Open() && MetatableSlotOk(L.registry, className)
      modifies L`stack, L`heap, L`globals, L`registry, L`userdata
      ensures L.Open()
      ensures L.stack == old(L.stack) && L.userdata == old(L.userdata)
      ensures ClassRegistered(L, className, Entries(staticFuncs), ctor, Entries(memberFuncs))
      ensures L.globals == old(L.globals)[className := TableRef(|old(L.heap)|)]
      ensures L.registry - {Str(className)} == old(L.registry) - {Str(className)}
      ensures Str(className) !in old(L.registry) ==>
                L.heap[L.registry[Str(className)].t].fields.Keys == {Str("__name"), Str("__gc"), Str("__index")}
      ensures forall t :: 0 <= t < |old(L.heap)| && TableRef(t) != Lookup(old(L.registry), Str(className)) ==>
                L.heap[t] == old(L.heap)[t]
      ensures ClassHeap(old(L.heap), old(L.registry), L.heap, L.registry, className,
                        Entries(staticFuncs), ctor, Entries(memberFuncs))
    {
      CreateClassTable(L, className, Entries(staticFuncs), ctor);
      CreateInstanceMetatable(L, className, Entries(memberFuncs));
    }

    /** EventManager.Register(callback): captures argument 1 in the
        registry and adds a listener that forwards to it. */
    method EventManagerRegister(L: LuaState) returns (n: int)
      requires L.Open() && globalL == L && |L.stack| >= 1
      modifies L`stack, L`registry, L`nextRef, events`callbacks
      ensures L.Open()
      ensures n == 0
      ensures L.stack == old(L.stack)[..|old(L.stack)| - 1]
      ensures |events.callbacks| == |old(events.callbacks)| + 1
      ensures events.callbacks[..|old(events.callbacks)|] == old(events.callbacks)
      ensures var f := events.callbacks[|old(events.callbacks)|];
              var v := old(L.stack)[|old(L.stack)| - 1];
              && fresh(f) && f.L == L
              && (v == Nil ==> f.reference == RefNil && L.registry == old(L.registry))
              && (v != Nil ==> Integer(f.reference) !in old(L.registry) && L.registry == old(L.registry)[Integer(f.reference) := v])
    {
      var reference := L.Ref(RegistryIndex);
      var luaFunc := new LuaFunction(globalL, reference);
      events.Register(luaFunc);
      n := 0;
    }

    method RegisterEventManagerToLua(L: LuaState)
      requires L.Open() && MetatableSlotOk(L.registry, "EventManager")
      modifies L`stack, L`heap, L`globals, L`registry, L`userdata
      ensures L.Open()
      ensures L.stack == old(L.stack) && L.userdata == old(L.userdata)
      ensures ClassRegistered(L, "EventManager", [("Register", EventManagerRegisterFunc)], None, [])
      ensures L.globals == old(L.globals)["EventManager" := TableRef(|old(L.heap)|)]
      ensures L.registry - {Str("EventManager")} == old(L.registry) - {Str("EventManager")}
      ensures Str("EventManager") !in old(L.registry) ==>
                L.heap[L.registry[Str("EventManager")].t].fields.Keys == {Str("__name"), Str("__gc"), Str("__index")}
      ensures forall t :: 0 <= t < |old(L.heap)| && TableRef(t) != Lookup(old(L.registry), Str("EventManager")) ==>
                L.heap[t] == old(L.heap)[t]
      ensures ClassHeap(old(L.heap), old(L.registry), L.heap, L.registry, "EventManager",
                        [("Register", EventManagerRegisterFunc)], None, [])
    {
      RegisterCSClass(L, "EventManager", Some([("Register", EventManagerRegisterFunc)]), None, None);
    }

    method DoEventManagerLuaCode(L: LuaState, load: LoadOutcome, run: CallOutcome)
      requires L.Open() && LoadOutcomeOk(load) && CallOutcomeOk(run, |L.heap|, |L.userdata|)
      modifies L`stack, L`trace
      ensures L.Open()
      ensures L.stack == old(L.stack) + [CodeSlot(load, run)]
      ensures L.trace == old(L.trace) + ChunkCalls(EventManagerChunk, load)
    {
      var _ := DoLuaCode(L, EventManagerChunk, load, run);
    }

    /** The state _globalL holds, if any. */
    function Held(): set<LuaState>
      reads this
    {
      if globalL == null then {} else {globalL}
    }

    /** Closes the global state if there is one and forgets it, so a second
        call closes nothing. */
    method OnDestroy()
      requires globalL != null ==> globalL.Open()
      modifies this`globalL, Held()`closed, Held()`closeCount
      ensures globalL == null
      ensures old(globalL) != null ==> old(globalL).closed && old(globalL).closeCount == old(globalL.closeCount) + 1
    {
      if globalL != null {
        globalL.Close();
        globalL := null;
      }
    }

    /** Start: creates the state, keeps it as _globalL and runs the demo
        routines in order. Library opening is not modelled. */
    method Start(test: Script, addSub: Script, addSubCall: CallOutcome, globalAddSub: Script,
                 globalCall: CallOutcome, printScript: Script, debugLog: Script, gameObject: Script,
                 eventManager: Script) returns (L: LuaState)
      requires Plain(test) && Plain(addSub) && Plain(globalAddSub) && Plain(printScript)
      requires Plain(debugLog) && Plain(gameObject) && Plain(eventManager)
      requires CallOutcomeOk(addSubCall, 0, 0) && CallOutcomeOk(globalCall, 0, 0)
      requires PopsWithinStack(if Ran(test) then 0 else 1, addSub.load, addSub.run, addSubCall)
      modifies this`globalL
      ensures fresh(L) && globalL == L && L.Open()
      ensures |L.stack| == StartDepth(test, addSub, addSubCall, globalAddSub, globalCall)
      ensures Ran(test) && Ran(addSub) && addSubCall.Returned? && Ran(globalAddSub) && globalCall.Returned? ==>
                |L.stack| == 5
    {
      L := new LuaState();
      globalL := L;
      StartCalls(L, test, addSub, addSubCall, globalAddSub, globalCall, printScript);
      StartClasses(L, debugLog, gameObject, eventManager);
    }

    /** Lines 28-31 of Start: the routines that call into Lua. */
    method StartCalls(L: LuaState, test: Script, addSub: Script, addSubCall: CallOutcome, globalAddSub: Script,
                      globalCall: CallOutcome, printScript: Script)
      requires L.Open() && L.stack == [] && L.heap == [] && L.userdata == []
      requires Plain(test) && Plain(addSub) && Plain(globalAddSub) && Plain(printScript)
      requires CallOutcomeOk(addSubCall, 0, 0) && CallOutcomeOk(globalCall, 0, 0)
      requires PopsWithinStack(if Ran(test) then 0 else 1, addSub.load, addSub.run, addSubCall)
      modifies L`stack, L`globals, L`trace
      ensures L.Open()
      ensures |L.stack| == StartDepth(test, addSub, addSubCall, globalAddSub, globalCall) - 3
    {
      DoLuaCodeTest(L, test.load, test.run);
      assert |L.stack| == if Ran(test) then 0 else 1;
      CallLuaFunc(L, addSub.load, addSub.run, addSubCall);
      CallLuaGlobalFunc(L, globalAddSub.load, globalAddSub.run, globalCall);
      LuaCallStaticCSFunc(L, printScript.load, printScript.run);
    }

    /** Lines 32-38 of Start: the class registrations and the scripts that
        use them; each script leaves one slot. */
    method StartClasses(L: LuaState, debugLog: Script, gameObject: Script, eventManager: Script)
      requires L.Open() && L.registry == map[]
      requires Plain(debugLog) && Plain(gameObject) && Plain(eventManager)
      modifies L`stack, L`heap, L`globals, L`registry, L`userdata, L`trace
      ensures L.Open()
      ensures |L.stack| == |old(L.stack)| + 3
    {
      RegisterDebugClassToLua(L);
      PlainSuits(debugLog.run, |L.heap|, |L.userdata|);
      CallDebugLog(L, debugLog.load, debugLog.run);
      RegisterGameObjectToLua(L);
      PlainSuits(gameObject.run, |L.heap|, |L.userdata|);
      CallGameObjectSetActiveInLua(L, gameObject.load, gameObject.run);
      assert L.registry - {Str("GameObject")} == map[];
      assert "EventManager"[0] != "GameObject"[0];
      assert Str("EventManager") !in L.registry - {Str("GameObject")};
      RegisterEventManagerToLua(L);
      PlainSuits(eventManager.run, |L.heap|, |L.userdata|);
      DoEventManagerLuaCode(L, eventManager.load, eventManager.run);
    }

    /** Capture then dispatch: after EventManager.Register(f), dispatching v
        calls f with v as the last listener. */
    method RegisterThenDispatch(L: LuaState, value: int, outcomes: seq<CallOutcome>)
      requires L.Open() && globalL == L && |L.stack| >= 1 && L.stack[|L.stack| - 1] != Nil
      requires forall i :: 0 <= i < |events.callbacks| ==> events.callbacks[i].L == L
      requires |outcomes| == |events.callbacks| + 1
      requires forall i :: 0 <= i < |outcomes| ==> CallOutcomeOk(outcomes[i], |L.heap|, |L.userdata|)
      modifies L`stack, L`registry, L`nextRef, L`trace, events`callbacks
      ensures L.Open()
      ensures |L.trace| == |old(L.trace)| + |outcomes|
      ensures L.trace[|L.trace| - 1] == Call(old(L.stack)[|old(L.stack)| - 1], [Integer(value)])
    {
      var _ := EventManagerRegister(L);
      events.Dispatch(value, L, outcomes);
    }

    /** OnDestroy twice closes the state once: the second call finds
        _globalL zeroed. */
    method DestroyTwice()
      requires globalL != null ==> globalL.Open()
      modifies this`globalL, Held()`closed, Held()`closeCount
      ensures globalL == null
      ensures old(globalL) != null ==> old(globalL).closeCount == 1
    {
      OnDestroy();
      OnDestroy();
    }
  }
}
