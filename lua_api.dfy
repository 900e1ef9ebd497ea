/** An abstract model of the parts of an embedded Lua 5.3 state that the demo
    touches: the value stack of the current call frame, a heap of tables with
    optional metatables, the globals, the registry (named metatables and
    integer references) and fresh userdata blocks. Each C-API primitive is a
    method whose stack effect follows sections 4.8 and 5.1 of the Lua 5.3
    Reference Manual. */
module LuaApi {

  datatype Option<T> = None | Some(value: T)

  lemma ConcatAssoc<T>(a: seq<T>, b: seq<T>, c: seq<T>)
    ensures (a + b) + c == a + (b + c)
  {
  }

  /** The address of a userdata block; 0 stands for NULL (IntPtr.Zero). */
  type Handle = nat

  /** The host (C#) functions the demo pushes with lua_pushcfunction. */
  datatype HostFunc =
    | PrintFunc
    | DebugLogFunc
    | GameObjectConstructorFunc
    | GameObjectSetActiveFunc
    | GcFunc
    | EventManagerRegisterFunc
    | OtherFunc(id: nat)

  /** A Lua value as far as the demo can observe it. A float is opaque: it is
      carried as the text that lua_tostring gives for it. A chunk is the
      function luaL_loadbuffer compiles from a source text; a closure is a
      function that running a script creates, told apart by an identity. */
  datatype Value =
    | Nil
    | Boolean(b: bool)
    | Integer(i: int)
    | Float(image: string)
    | Str(s: string)
    | CFunction(f: HostFunc)
    | Chunk(source: string)
    | Closure(id: nat)
    | TableRef(t: nat)
    | Userdata(h: Handle)

  datatype Table = Table(fields: map<Value, Value>, meta: Option<nat>)

  /** A call made by lua_pcall: the callee and its arguments. */
  datatype Call = Call(callee: Value, args: seq<Value>)

  /** Thread status codes of Lua 5.3 (lua.h). */
  datatype Status = Ok | ErrRun | ErrSyntax | ErrMem | ErrGcmm | ErrErr {
    function Code(): (c: nat)
      ensures (c == 0) <==> this == Ok
      ensures c <= 6
    {
      match this
      case Ok => 0
      case ErrRun => 2
      case ErrSyntax => 3
      case ErrMem => 4
      case ErrGcmm => 5
      case ErrErr => 6
    }
  }

  /** What luaL_loadbuffer makes of a chunk text; compiling is not modelled. */
  datatype LoadOutcome = Compiled | LoadFailed(status: Status, message: string)

  predicate LoadOutcomeOk(o: LoadOutcome) {
    o.LoadFailed? ==> o.status in {ErrSyntax, ErrMem, ErrGcmm}
  }

  /** What the callee of lua_pcall does; running it is not modelled. */
  datatype CallOutcome = Returned(values: seq<Value>) | Raised(status: Status, error: Value)

  predicate CallOutcomeOk(o: CallOutcome, tables: nat, blocks: nat) {
    match o
    case Returned(vs) => forall i :: 0 <= i < |vs| ==> Within(vs[i], tables, blocks)
    case Raised(st, e) => st in {ErrRun, ErrMem, ErrGcmm, ErrErr} && Within(e, tables, blocks)
  }

  const RegistryIndex: int := -1001000  // LUA_REGISTRYINDEX: -LUAI_MAXSTACK - 1000
  const MultRet: int := -1               // LUA_MULTRET
  const RefNil: int := -1                // LUA_REFNIL

  /** A value refers only to tables and userdata blocks that exist. */
  predicate Within(v: Value, tables: nat, blocks: nat) {
    (v.TableRef? ==> v.t < tables) && (v.Userdata? ==> 1 <= v.h <= blocks)
  }

  predicate MetaOk(m: Option<nat>, tables: nat) {
    m.Some? ==> m.value < tables
  }

  /** An index that names a slot of a stack of `top` slots (section 4.3 of
      the Lua 5.3 Reference Manual). */
  predicate ValidIndex(idx: int, top: nat) {
    (1 <= idx <= top) || (-(top as int) <= idx <= -1)
  }

  /** The 0-based position that index `idx` names: positive indices count
      from the bottom starting at 1, negative ones from the top. */
  function AbsIndex(idx: int, top: nat): (k: nat)
    requires ValidIndex(idx, top)
    ensures k < top
  {
    if idx > 0 then idx - 1 else top + idx
  }

  /** Every slot has exactly one positive and one negative name. */
  lemma IndexNames(top: nat, k: nat)
    requires k < top
    ensures ValidIndex(k + 1, top) && AbsIndex(k + 1, top) == k
    ensures ValidIndex(k - top, top) && AbsIndex(k - top, top) == k
    ensures forall idx :: ValidIndex(idx, top) && AbsIndex(idx, top) == k ==> idx == k + 1 || idx == k - top
  {
  }

  /** The results lua_pcall leaves for `n` requested results: the first `n`
      returned values, padded with nil. */
  function Adjust(values: seq<Value>, n: nat): (r: seq<Value>)
    ensures |r| == n
    ensures forall i :: 0 <= i < n ==> r[i] == if i < |values| then values[i] else Nil
  {
    if n == 0 then []
    else if values == [] then [Nil] + Adjust([], n - 1)
    else [values[0]] + Adjust(values[1..], n - 1)
  }

  function CallResults(values: seq<Value>, nresults: int): (r: seq<Value>)
    requires nresults >= 0 || nresults == MultRet
    ensures nresults == MultRet ==> r == values
    ensures nresults >= 0 ==> |r| == nresults
  {
    if nresults == MultRet then values else Adjust(values, nresults)
  }

  function Digit(d: nat): (c: char)
    requires d < 10
    ensures '0' <= c <= '9'
  {
    "0123456789"[d]
  }

  function NatDigits(n: nat): (s: string)
    ensures |s| >= 1 && '0' <= s[0] <= '9'
  {
    if n < 10 then [Digit(n)] else NatDigits(n / 10) + [Digit(n % 10)]
  }

  /** Every character of a natural number's text is a digit. */
  lemma {:induction false} NatDigitsAreDigits(n: nat)
    ensures forall i :: 0 <= i < |NatDigits(n)| ==> '0' <= NatDigits(n)[i] <= '9'
  {
    if n >= 10 {
      NatDigitsAreDigits(n / 10);
      assert NatDigits(n) == NatDigits(n / 10) + [Digit(n % 10)];
    }
  }

  /** The decimal text Lua gives an integer ("%lld"). */
  function DecimalString(i: int): (s: string)
    ensures |s| >= 1
    ensures (s[0] == '-') <==> i < 0
  {
    if i < 0 then "-" + NatDigits(-i) else NatDigits(i)
  }

  /** The value of a digit character (0 for any other character). */
  function DigitValue(c: char): nat {
    if '0' <= c <= '9' then c as int - '0' as int else 0
  }

  /** Reads a run of decimal digits back as a number, most significant
      first. */
  function ParseNat(s: string): nat {
    if s == [] then 0 else ParseNat(s[..|s| - 1]) * 10 + DigitValue(s[|s| - 1])
  }

  /** Reads an integer's text back: an optional '-' and then digits. */
  function ParseInt(s: string): int {
    if |s| >= 1 && s[0] == '-' then -(ParseNat(s[1..]) as int) else ParseNat(s)
  }

  lemma DigitRound(d: nat)
    requires d < 10
    ensures DigitValue(Digit(d)) == d
  {
    assert "0123456789"[d] as int == '0' as int + d;
  }

  /** The digits of n spell n. */
  lemma {:induction false} NatDigitsRound(n: nat)
    ensures ParseNat(NatDigits(n)) == n
  {
    if n < 10 {
      DigitRound(n);
      assert NatDigits(n)[..0] == [];
    } else {
      NatDigitsRound(n / 10);
      DigitRound(n % 10);
      var s := NatDigits(n);
      assert s[..|s| - 1] == NatDigits(n / 10);
      assert s[|s| - 1] == Digit(n % 10);
    }
  }

  /** The text Lua gives an integer reads back as that integer. */
  lemma DecimalStringRound(i: int)
    ensures ParseInt(DecimalString(i)) == i
  {
    if i < 0 {
      NatDigitsRound(-i);
      assert DecimalString(i)[1..] == NatDigits(-i);
    } else {
      NatDigitsRound(i);
    }
  }

  /** After an optional sign, an integer's text is all digits. */
  lemma DecimalStringDigits(i: int)
    ensures forall k :: 0 < k < |DecimalString(i)| ==> '0' <= DecimalString(i)[k] <= '9'
  {
    if i < 0 {
      NatDigitsAreDigits(-i);
      assert forall k :: 0 < k < |DecimalString(i)| ==> DecimalString(i)[k] == NatDigits(-i)[k - 1];
    } else {
      NatDigitsAreDigits(i);
    }
  }

  /** lua_tostring: strings and numbers have a text, every other value NULL. */
  function Text(v: Value): (r: Option<string>)
    ensures r.Some? <==> (v.Str? || v.Integer? || v.Float?)
    ensures v.Str? ==> r == Some(v.s)
  {
    match v
    case Str(s) => Some(s)
    case Integer(i) => Some(DecimalString(i))
    case Float(image) => Some(image)
    case _ => None
  }

  /** lua_tostring converts a number slot into a string in place. */
  function Stringified(v: Value): (r: Value)
    ensures Text(r) == Text(v)
    ensures !(v.Integer? || v.Float?) ==> r == v
    ensures (v.Integer? || v.Float?) ==> r.Str?
  {
    if v.Integer? || v.Float? then Str(Text(v).value) else v
  }

  /** lua_toboolean: everything but nil and false is true. */
  predicate Truthy(v: Value) {
    v != Nil && v != Boolean(false)
  }

  /** lua_settable / lua_setglobal with a nil value removes the key. */
  function Assign<K(!new)>(m: map<K, Value>, k: K, v: Value): (r: map<K, Value>)
    ensures v == Nil ==> k !in r
    ensures v != Nil ==> k in r && r[k] == v
    ensures forall j :: j != k ==> (j in r <==> j in m) && (j in r ==> r[j] == m[j])
  {
    if v == Nil then m - {k} else m[k := v]
  }

  /** The address lua_touserdata gives for index `idx`: that of a userdata
      slot, NULL (0) for anything else or a missing argument. */
  function HandleAt(stack: seq<Value>, idx: int): (h: Handle)
    ensures h != 0 ==> ValidIndex(idx, |stack|) && stack[AbsIndex(idx, |stack|)] == Userdata(h)
    ensures ValidIndex(idx, |stack|) && stack[AbsIndex(idx, |stack|)].Userdata? && stack[AbsIndex(idx, |stack|)].h != 0 ==> h != 0
  {
    if ValidIndex(idx, |stack|) && stack[AbsIndex(idx, |stack|)].Userdata? then stack[AbsIndex(idx, |stack|)].h else 0
  }

  /** lua_rawget on the registry: an absent key reads as nil. */
  function Lookup(m: map<Value, Value>, k: Value): (r: Value)
    ensures k in m ==> r == m[k]
    ensures k !in m ==> r == Nil
  {
    if k in m then m[k] else Nil
  }

  class LuaState {
    var stack: seq<Value>
    var heap: seq<Table>
    var globals: map<string, Value>
    var registry: map<Value, Value>
    var userdata: seq<Option<nat>>  // the metatable of block h is userdata[h - 1]
    var nextRef: int
    var closed: bool
    ghost var trace: seq<Call>      // every call made through lua_pcall, in order
    ghost var closeCount: nat       // how many times lua_close was applied

    ghost predicate Valid()
      reads this
    {
      && (forall i :: 0 <= i < |stack| ==> Within(stack[i], |heap|, |userdata|))
      && (forall k :: k in globals ==> globals[k] != Nil && Within(globals[k], |heap|, |userdata|))
      && (forall k :: k in registry ==> registry[k] != Nil && Within(registry[k], |heap|, |userdata|))
      && (forall t :: 0 <= t < |heap| ==> MetaOk(heap[t].meta, |heap|))
      && (forall h :: 0 <= h < |userdata| ==> MetaOk(userdata[h], |heap|))
      && nextRef >= 1
      && closeCount == (if closed then 1 else 0)
      && (forall k :: k in registry && k.Integer? ==> k.i < nextRef)
    }

    ghost predicate Open()
      reads this
    {
      Valid() && !closed
    }

    /** luaL_newstate, except that the predefined registry entries (the main
        thread and the globals table) are not modelled, and neither is
        luaL_openlibs: the state starts with no globals and an empty
        registry. */
    constructor ()
      ensures Open()
      ensures stack == [] && heap == [] && globals == map[] && registry == map[]
      ensures userdata == [] && trace == []
    {
      stack, heap, globals, registry := [], [], map[], map[];
      userdata, nextRef, closed, trace, closeCount := [], 1, false, [], 0;
    }

    /** lua_close. */
    method Close()
      requires Open()
      modifies this`closed, this`closeCount
      ensures Valid() && closed
      ensures closeCount == old(closeCount) + 1
    {
      closed := true;
      closeCount := closeCount + 1;
    }

    /** lua_gettop. */
    method GetTop() returns (n: nat)
      requires Open()
      ensures n == |stack|
    {
      n := |stack|;
    }

    /** lua_createtable: pushes a new empty table (the size hints only
        preallocate). */
    method CreateTable(narr: int, nrec: int)
      requires Open()
      modifies this`stack, this`heap
      ensures Open()
      ensures heap == old(heap) + [Table(map[], None)]
      ensures stack == old(stack) + [TableRef(|old(heap)|)]
    {
      stack := stack + [TableRef(|heap|)];
      heap := heap + [Table(map[], None)];
    }

    /** lua_pushstring. */
    method PushString(s: string)
      requires Open()
      modifies this`stack
      ensures Open() && stack == old(stack) + [Str(s)]
    {
      stack := stack + [Str(s)];
    }

    /** lua_pushcfunction. */
    method PushCFunction(f: HostFunc)
      requires Open()
      modifies this`stack
      ensures Open() && stack == old(stack) + [CFunction(f)]
    {
      stack := stack + [CFunction(f)];
    }

    /** lua_pushnumber: the float is opaque, given by its text. */
    method PushNumber(image: string)
      requires Open()
      modifies this`stack
      ensures Open() && stack == old(stack) + [Float(image)]
    {
      stack := stack + [Float(image)];
    }

    /** lua_pushinteger. */
    method PushInteger(n: int)
      requires Open()
      modifies this`stack
      ensures Open() && stack == old(stack) + [Integer(n)]
    {
      stack := stack + [Integer(n)];
    }

    /** lua_pop(n), that is lua_settop(-n-1). */
    method Pop(n: nat)
      requires Open() && n <= |stack|
      modifies this`stack
      ensures Open() && stack == old(stack)[..|old(stack)| - n]
    {
      stack := stack[..|stack| - n];
    }

    /** lua_settable(idx): t[k] = v where t is at idx, v on top and k just
        below; pops both. Only tables are targets here, and metamethods
        (__newindex) are not consulted. A nil key is an error in Lua. */
    method SetTable(idx: int)
      requires Open() && |stack| >= 2 && ValidIndex(idx, |stack|)
      requires stack[AbsIndex(idx, |stack|)].TableRef?
      requires stack[|stack| - 2] != Nil
      modifies this`stack, this`heap
      ensures Open()
      ensures var t := old(stack)[AbsIndex(idx, |old(stack)|)].t;
              var k, v := old(stack)[|old(stack)| - 2], old(stack)[|old(stack)| - 1];
              heap == old(heap)[t := Table(Assign(old(heap)[t].fields, k, v), old(heap)[t].meta)]
      ensures stack == old(stack)[..|old(stack)| - 2]
    {
      var t := stack[AbsIndex(idx, |stack|)].t;
      var k, v := stack[|stack| - 2], stack[|stack| - 1];
      heap := heap[t := Table(Assign(heap[t].fields, k, v), heap[t].meta)];
      stack := stack[..|stack| - 2];
    }

    /** lua_setmetatable(idx): pops a table (or nil) and makes it the
        metatable of the table or userdata at idx. */
    method SetMetatable(idx: int)
      requires Open() && |stack| >= 1 && ValidIndex(idx, |stack|)
      requires stack[|stack| - 1].TableRef? || stack[|stack| - 1] == Nil
      requires stack[AbsIndex(idx, |stack|)].TableRef? || stack[AbsIndex(idx, |stack|)].Userdata?
      modifies this`stack, this`heap, this`userdata
      ensures Open()
      ensures var target := old(stack)[AbsIndex(idx, |old(stack)|)];
              var m := old(stack)[|old(stack)| - 1];
              var meta := if m.TableRef? then Some(m.t) else None;
              && (target.TableRef? ==>
                    heap == old(heap)[target.t := Table(old(heap)[target.t].fields, meta)] && userdata == old(userdata))
              && (target.Userdata? ==>
                    userdata == old(userdata)[target.h - 1 := meta] && heap == old(heap))
      ensures stack == old(stack)[..|old(stack)| - 1]
    {
      var target := stack[AbsIndex(idx, |stack|)];
      var m := stack[|stack| - 1];
      var meta := if m.TableRef? then Some(m.t) else None;
      if target.TableRef? {
        heap := heap[target.t := Table(heap[target.t].fields, meta)];
      } else {
        userdata := userdata[target.h - 1 := meta];
      }
      stack := stack[..|stack| - 1];
    }

    /** lua_setglobal: pops the top value into the global `name`. */
    method SetGlobal(name: string)
      requires Open() && |stack| >= 1
      modifies this`stack, this`globals
      ensures Open()
      ensures globals == Assign(old(globals), name, old(stack)[|old(stack)| - 1])
      ensures stack == old(stack)[..|old(stack)| - 1]
    {
      globals := Assign(globals, name, stack[|stack| - 1]);
      stack := stack[..|stack| - 1];
    }

    /** lua_getglobal: pushes the global `name`, nil when it is unset. */
    method GetGlobal(name: string)
      requires Open()
      modifies this`stack
      ensures Open()
      ensures stack == old(stack) + [if name in globals then globals[name] else Nil]
    {
      stack := stack + [if name in globals then globals[name] else Nil];
    }

    /** lua_newuserdata: pushes a fresh block without a metatable and
        returns its address. The size is not modelled. */
    method NewUserdata(size: nat) returns (h: Handle)
      requires Open()
      modifies this`stack, this`userdata
      ensures Open()
      ensures h == |old(userdata)| + 1
      ensures userdata == old(userdata) + [None]
      ensures stack == old(stack) + [Userdata(h)]
    {
      userdata := userdata + [None];
      h := |userdata|;
      stack := stack + [Userdata(h)];
    }

    /** luaL_newmetatable: when the registry has no entry `name`, makes a
        table with __name = name, stores it there and returns true;
        otherwise returns false. Either way pushes registry[name]. */
    method NewMetatable(name: string) returns (created: bool)
      requires Open()
      modifies this`stack, this`heap, this`registry
      ensures Open()
      ensures created <==> Str(name) !in old(registry)
      ensures created ==>
                && heap == old(heap) + [Table(map[Str("__name") := Str(name)], None)]
                && registry == old(registry)[Str(name) := TableRef(|old(heap)|)]
      ensures !created ==> heap == old(heap) && registry == old(registry)
      ensures stack == old(stack) + [registry[Str(name)]]
    {
      created := Str(name) !in registry;
      if created {
        registry := registry[Str(name) := TableRef(|heap|)];
        heap := heap + [Table(map[Str("__name") := Str(name)], None)];
      }
      stack := stack + [registry[Str(name)]];
    }

    /** luaL_setmetatable: gives the value on top the metatable
        registry[name] (none when the entry is absent). */
    method SetMetatableByName(name: string)
      requires Open() && |stack| >= 1
      requires stack[|stack| - 1].TableRef? || stack[|stack| - 1].Userdata?
      requires Str(name) in registry ==> registry[Str(name)].TableRef?
      modifies this`heap, this`userdata
      ensures Open()
      ensures var target := stack[|stack| - 1];
              var meta := if Str(name) in registry then Some(registry[Str(name)].t) else None;
              && (target.TableRef? ==>
                    heap == old(heap)[target.t := Table(old(heap)[target.t].fields, meta)] && userdata == old(userdata))
              && (target.Userdata? ==>
                    userdata == old(userdata)[target.h - 1 := meta] && heap == old(heap))
    {
      var target := stack[|stack| - 1];
      var meta := if Str(name) in registry then Some(registry[Str(name)].t) else None;
      if target.TableRef? {
        heap := heap[target.t := Table(heap[target.t].fields, meta)];
      } else {
        userdata := userdata[target.h - 1 := meta];
      }
    }

    /** luaL_ref on the registry: pops the top value; nil gets LUA_REFNIL and
        is not stored, any other value is stored under a fresh integer key. */
    method Ref(t: int) returns (r: int)
      requires Open() && t == RegistryIndex && |stack| >= 1
      modifies this`stack, this`registry, this`nextRef
      ensures Open()
      ensures var v := old(stack)[|old(stack)| - 1];
              && (v == Nil ==> r == RefNil && registry == old(registry))
              && (v != Nil ==> r >= 1 && Integer(r) !in old(registry) && registry == old(registry)[Integer(r) := v])
      ensures stack == old(stack)[..|old(stack)| - 1]
    {
      var v := stack[|stack| - 1];
      if v == Nil {
        r := RefNil;
      } else {
        r := nextRef;
        registry := registry[Integer(r) := v];
        nextRef := nextRef + 1;
      }
      stack := stack[..|stack| - 1];
    }

    /** luaL_unref on the registry: frees reference `ref` (negative
        references are ignored). */
    method Unref(t: int, ref: int)
      requires Open() && t == RegistryIndex
      modifies this`registry
      ensures Open()
      ensures registry == if ref >= 0 then old(registry) - {Integer(ref)} else old(registry)
    {
      if ref >= 0 {
        registry := registry - {Integer(ref)};
      }
    }

    /** lua_rawgeti on the registry: pushes registry[n], nil when absent. */
    method RawGetI(idx: int, n: int)
      requires Open() && idx == RegistryIndex
      modifies this`stack
      ensures Open() && stack == old(stack) + [Lookup(registry, Integer(n))]
    {
      stack := stack + [Lookup(registry, Integer(n))];
    }

    /** luaL_loadbuffer: on success pushes the compiled chunk and returns 0;
        on failure pushes the error message and returns the error code. */
    method LoadBuffer(code: string, outcome: LoadOutcome) returns (status: int)
      requires Open() && LoadOutcomeOk(outcome)
      modifies this`stack
      ensures Open()
      ensures (status == 0) <==> outcome.Compiled?
      ensures outcome.Compiled? ==> stack == old(stack) + [Chunk(code)]
      ensures outcome.LoadFailed? ==>
                status == outcome.status.Code() && stack == old(stack) + [Str(outcome.message)]
    {
      match outcome
      case Compiled =>
        stack := stack + [Chunk(code)];
        status := 0;
      case LoadFailed(st, msg) =>
        stack := stack + [Str(msg)];
        status := st.Code();
    }

    /** lua_pcall(nargs, nresults, 0): removes the function and its `nargs`
        arguments; on success pushes `nresults` results (all of them for
        LUA_MULTRET) and returns 0; on failure pushes the one error object and
        returns its code. A message handler is not modelled. */
    method PCall(nargs: nat, nresults: int, errfunc: int, outcome: CallOutcome) returns (status: int)
      requires Open() && |stack| >= nargs + 1 && errfunc == 0
      requires nresults >= 0 || nresults == MultRet
      requires CallOutcomeOk(outcome, |heap|, |userdata|)
      modifies this`stack, this`trace
      ensures Open()
      ensures var base := |old(stack)| - nargs - 1;
              trace == old(trace) + [Call(old(stack)[base], old(stack)[base + 1..])]
      ensures (status == 0) <==> outcome.Returned?
      ensures var base := |old(stack)| - nargs - 1;
              && (outcome.Returned? ==> stack == old(stack)[..base] + CallResults(outcome.values, nresults))
              && (outcome.Raised? ==> status == outcome.status.Code() && stack == old(stack)[..base] + [outcome.error])
    {
      var base := |stack| - nargs - 1;
      trace := trace + [Call(stack[base], stack[base + 1..])];
      match outcome
      case Returned(vs) =>
        stack := stack[..base] + CallResults(vs, nresults);
        status := 0;
      case Raised(st, e) =>
        stack := stack[..base] + [e];
        status := st.Code();
    }

    /** lua_tostring: the text of a string or number slot (a number slot is
        converted to a string in place), NULL otherwise. A positive index
        above the top is acceptable and reads as none. */
    method ToString(idx: int) returns (r: Option<string>)
      requires Open() && (ValidIndex(idx, |stack|) || idx > |stack|)
      modifies this`stack
      ensures Open()
      ensures ValidIndex(idx, |old(stack)|) ==>
                var k := AbsIndex(idx, |old(stack)|);
                r == Text(old(stack)[k]) && stack == old(stack)[k := Stringified(old(stack)[k])]
      ensures !ValidIndex(idx, |old(stack)|) ==> r == None && stack == old(stack)
    {
      if ValidIndex(idx, |stack|) {
        var k := AbsIndex(idx, |stack|);
        r := Text(stack[k]);
        stack := stack[k := Stringified(stack[k])];
      } else {
        r := None;
      }
    }

    /** lua_touserdata: the address of a userdata slot, NULL otherwise. */
    method ToUserdata(idx: int) returns (h: Handle)
      requires Open() && (ValidIndex(idx, |stack|) || idx > |stack|)
      ensures h == HandleAt(stack, idx)
      ensures (h != 0) <==> ValidIndex(idx, |stack|) && stack[AbsIndex(idx, |stack|)].Userdata?
    {
      h := 0;
      if ValidIndex(idx, |stack|) && stack[AbsIndex(idx, |stack|)].Userdata? {
        h := stack[AbsIndex(idx, |stack|)].h;
      }
    }

    /** lua_toboolean: false for nil, false and a missing argument. */
    method ToBoolean(idx: int) returns (b: bool)
      requires Open() && (ValidIndex(idx, |stack|) || idx > |stack|)
      ensures b <==> ValidIndex(idx, |stack|) && Truthy(stack[AbsIndex(idx, |stack|)])
    {
      b := ValidIndex(idx, |stack|) && Truthy(stack[AbsIndex(idx, |stack|)]);
    }
  }
}
