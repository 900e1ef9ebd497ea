# UnityLuaInteractDemo, modelled in Dafny

The demo is one Unity component that embeds a Lua 5.3 state and works it
through the C API. It runs script snippets. It calls Lua functions from C#.
It registers C# functions and classes into Lua: a `print`, a `Debug` table
and a `GameObject` class whose instances are userdata handles. It keeps a
handle-to-object cache, and it bridges a C# event broadcaster to Lua
callbacks held by registry reference.

The project has three modules:

- `LuaApi` (lua_api.dfy) is an abstract Lua state, class `LuaState`. It
  holds four things:
  - the value stack of the current call frame (1-based and negative
    indices, section 4.3 of the Lua 5.3 Reference Manual);
  - a heap of tables, each with fields and an optional metatable;
  - the globals and the registry (named metatables, integer references);
  - fresh userdata blocks.

  Each C-API primitive the demo calls is a method. Its stack effect follows
  sections 4.8 and 5.1 of the manual. Script compilation and execution are
  not modelled: `LoadBuffer` and `PCall` take the outcome as a parameter
  (`LoadOutcome`, `CallOutcome`). A ghost `trace` records every call made
  through `lua_pcall`.
- `Events` (events.dfy) holds `LuaFunction` (a registry reference plus its
  state) and `EventManager` (the ordered listener list behind the static
  event).
- `Demo` (demo.dfy) is class `UnityLuaInteractDemo`. The source declares
  `_globalL`, `_objectCache` and the event static; the model makes them
  fields of one component instance, beside the game objects it creates. Every
  routine of the component is a method of this class, proved against
  specification functions (`JoinArgs`, `FuncTable`, `CodeSlot`,
  `ClassRegistered`, `StartDepth`).

Two things the model reproduces rather than fixes:

- `DoLuaCode` always asks for one result, so it leaves exactly one slot on
  every path. That slot is the result, the runtime error object or the load
  error message. Its callers that never pop it each leave the stack one slot
  deeper. After a successful run, `Start` leaves 5 slots.
- `lua_tostring` converts a number slot into a string in place. `Print`
  therefore leaves its number arguments as strings.

Two error paths:

- `GameObject_SetActive` indexes `_objectCache` with the handle it is given.
  A handle that is not cached makes it throw `KeyNotFoundException`. Nothing
  in the source catches it, and the function runs as a callback invoked
  from Lua's C code. The model ends such a call with `Threw(KeyNotFound)`.
- A compile failure leaves its error message on the stack, because
  `luaL_loadbuffer` pushes it and `DoLuaCode` does not pop it.

## Model

| member | source | states |
|---|---|---|
| `LuaApi.AbsIndex` | Assets/UnityLuaInteractDemo/UnityLuaInteractDemo.cs:103-104 | a valid positive or negative stack index names a slot below the top |
| `LuaApi.IndexNames` | Assets/UnityLuaInteractDemo/UnityLuaInteractDemo.cs:103-104 | every slot k has exactly two names, k+1 and k-top |
| `LuaApi.Adjust` | Assets/UnityLuaInteractDemo/UnityLuaInteractDemo.cs:63 | pcall's results are exactly n slots: the first n returned values, padded with nil |
| `LuaApi.CallResults` | Assets/UnityLuaInteractDemo/UnityLuaInteractDemo.cs:100 | nresults slots, or all values for LUA_MULTRET |
| `LuaApi.Status.Code` | Assets/UnityLuaInteractDemo/UnityLuaInteractDemo.cs:61-63 | the status code is 0 exactly for LUA_OK |
| `LuaApi.DecimalString` | Assets/UnityLuaInteractDemo/UnityLuaInteractDemo.cs:139 | an integer's text is non-empty, with a leading '-' exactly for negatives (its value is stated by DecimalStringRound) |
| `LuaApi.NatDigits` | Assets/UnityLuaInteractDemo/UnityLuaInteractDemo.cs:139 | a natural number's text is non-empty and starts with a digit |
| `LuaApi.ParseNat` | Assets/UnityLuaInteractDemo/UnityLuaInteractDemo.cs:139 | the reference reading of a digit string: its value in base 10 |
| `LuaApi.ParseInt` | Assets/UnityLuaInteractDemo/UnityLuaInteractDemo.cs:139 | the reference reading of an optional '-' and digits as an integer |
| `LuaApi.DigitRound` | Assets/UnityLuaInteractDemo/UnityLuaInteractDemo.cs:139 | a digit's character reads back as that digit |
| `LuaApi.NatDigitsRound` | Assets/UnityLuaInteractDemo/UnityLuaInteractDemo.cs:139 | a natural number's text reads back as the number |
| `LuaApi.DecimalStringRound` | Assets/UnityLuaInteractDemo/UnityLuaInteractDemo.cs:139 | an integer's text reads back as the integer, so distinct integers have distinct texts |
| `LuaApi.ValidIndex` | Assets/UnityLuaInteractDemo/UnityLuaInteractDemo.cs:103-104 | the indices that name a slot of the frame: 1..top and -top..-1 |
| `LuaApi.Truthy` | Assets/UnityLuaInteractDemo/UnityLuaInteractDemo.cs:221 | lua_toboolean is false exactly for nil and false |
| `LuaApi.LuaState.Valid` | Assets/UnityLuaInteractDemo/UnityLuaInteractDemo.cs:22-47 | every stack slot, global and registry value refers to an existing table or block; metatables exist; references stay below the next fresh one; the close count is 1 exactly when closed |
| `LuaApi.LuaState.Open` | Assets/UnityLuaInteractDemo/UnityLuaInteractDemo.cs:42-47 | the state is valid and lua_close has not been applied |
| `LuaApi.NatDigitsAreDigits` | Assets/UnityLuaInteractDemo/UnityLuaInteractDemo.cs:139 | a natural number's text is all decimal digits |
| `LuaApi.DecimalStringDigits` | Assets/UnityLuaInteractDemo/UnityLuaInteractDemo.cs:139 | after the optional sign, an integer's text is all decimal digits |
| `LuaApi.Text` | Assets/UnityLuaInteractDemo/UnityLuaInteractDemo.cs:139 | lua_tostring gives text exactly for strings and numbers; a string gives itself |
| `LuaApi.Stringified` | Assets/UnityLuaInteractDemo/UnityLuaInteractDemo.cs:139 | in-place conversion turns numbers into strings with the same text and leaves other values alone |
| `LuaApi.Assign` | Assets/UnityLuaInteractDemo/UnityLuaInteractDemo.cs:186 | setting a key to nil removes it; any other value is stored; other keys are untouched |
| `LuaApi.Lookup` | Assets/UnityLuaInteractDemo/UnityLuaInteractDemo.cs:431 | a registry read gives the stored value, or nil when the key is absent |
| `LuaApi.HandleAt` | Assets/UnityLuaInteractDemo/UnityLuaInteractDemo.cs:220 | lua_touserdata gives a non-NULL address exactly for a userdata slot |
| `LuaApi.LuaState.constructor` | Assets/UnityLuaInteractDemo/UnityLuaInteractDemo.cs:25 | a new state is open, with an empty stack, heap, globals and registry (the predefined entries and the standard library are left out) |
| `LuaApi.LuaState.Close` | Assets/UnityLuaInteractDemo/UnityLuaInteractDemo.cs:44 | lua_close needs an open state, closes it and adds one to its ghost close count |
| `LuaApi.LuaState.GetTop` | Assets/UnityLuaInteractDemo/UnityLuaInteractDemo.cs:135 | returns the number of slots in the frame |
| `LuaApi.LuaState.CreateTable` | Assets/UnityLuaInteractDemo/UnityLuaInteractDemo.cs:182 | pushes one new empty table without a metatable |
| `LuaApi.LuaState.PushString` | Assets/UnityLuaInteractDemo/UnityLuaInteractDemo.cs:184 | pushes one string slot |
| `LuaApi.LuaState.PushCFunction` | Assets/UnityLuaInteractDemo/UnityLuaInteractDemo.cs:149 | pushes one host function slot |
| `LuaApi.LuaState.PushNumber` | Assets/UnityLuaInteractDemo/UnityLuaInteractDemo.cs:98 | pushes one (opaque) float slot |
| `LuaApi.LuaState.PushInteger` | Assets/UnityLuaInteractDemo/UnityLuaInteractDemo.cs:433 | pushes one integer slot |
| `LuaApi.LuaState.Pop` | Assets/UnityLuaInteractDemo/UnityLuaInteractDemo.cs:83 | removes exactly the top n slots, which must exist |
| `LuaApi.LuaState.SetTable` | Assets/UnityLuaInteractDemo/UnityLuaInteractDemo.cs:186 | t[k] = v for the table at idx, the key below the top and the value on top; pops both |
| `LuaApi.LuaState.SetMetatable` | Assets/UnityLuaInteractDemo/UnityLuaInteractDemo.cs:257 | pops a table or nil and makes it the metatable of the table or userdata at idx |
| `LuaApi.LuaState.SetGlobal` | Assets/UnityLuaInteractDemo/UnityLuaInteractDemo.cs:151 | pops the top value into the named global |
| `LuaApi.LuaState.GetGlobal` | Assets/UnityLuaInteractDemo/UnityLuaInteractDemo.cs:117 | pushes the named global, or nil when it is unset |
| `LuaApi.LuaState.NewUserdata` | Assets/UnityLuaInteractDemo/UnityLuaInteractDemo.cs:208 | pushes a fresh block without a metatable and returns its new address |
| `LuaApi.LuaState.NewMetatable` | Assets/UnityLuaInteractDemo/UnityLuaInteractDemo.cs:267 | creates registry[name] with __name only when it is absent, and reports which; pushes registry[name] |
| `LuaApi.LuaState.SetMetatableByName` | Assets/UnityLuaInteractDemo/UnityLuaInteractDemo.cs:210 | gives the top value the metatable registry[name], or none when that is absent |
| `LuaApi.LuaState.Ref` | Assets/UnityLuaInteractDemo/UnityLuaInteractDemo.cs:372 | pops the top value; nil gets LUA_REFNIL and is not stored; any other value is stored under a fresh key |
| `LuaApi.LuaState.Unref` | Assets/UnityLuaInteractDemo/UnityLuaInteractDemo.cs:439 | frees exactly a non-negative reference; a negative one changes nothing |
| `LuaApi.LuaState.RawGetI` | Assets/UnityLuaInteractDemo/UnityLuaInteractDemo.cs:431 | pushes registry[n], or nil |
| `LuaApi.LuaState.LoadBuffer` | Assets/UnityLuaInteractDemo/UnityLuaInteractDemo.cs:61 | returns 0 and pushes the chunk exactly when it compiles; otherwise pushes the message and returns the error code |
| `LuaApi.LuaState.PCall` | Assets/UnityLuaInteractDemo/UnityLuaInteractDemo.cs:63 | replaces the function and its args with nresults slots (status 0) or with one error object (status = error code); records the call |
| `LuaApi.LuaState.ToString` | Assets/UnityLuaInteractDemo/UnityLuaInteractDemo.cs:139 | returns Text of the slot, converts a number slot in place; a missing argument reads as NULL |
| `LuaApi.LuaState.ToUserdata` | Assets/UnityLuaInteractDemo/UnityLuaInteractDemo.cs:220 | returns the userdata address at idx, NULL for anything else |
| `LuaApi.LuaState.ToBoolean` | Assets/UnityLuaInteractDemo/UnityLuaInteractDemo.cs:221 | true exactly for a present value other than nil and false |
| `Events.LuaFunction.constructor` | Assets/UnityLuaInteractDemo/UnityLuaInteractDemo.cs:424-427 | keeps the state and the reference |
| `Events.LuaFunction.Finalize` | Assets/UnityLuaInteractDemo/UnityLuaInteractDemo.cs:437-440 | the finalizer frees exactly the entry under a non-negative reference and leaves every other registry entry |
| `Events.Invocation` | Assets/UnityLuaInteractDemo/UnityLuaInteractDemo.cs:429-435 | the call a listener makes: the function stored under its reference (nil once freed) with the integer argument |
| `Events.Errors` | Assets/UnityLuaInteractDemo/UnityLuaInteractDemo.cs:408-412 | the error objects a dispatch leaves, one per failed callback, in listener order |
| `Events.LuaFunction.PCall` | Assets/UnityLuaInteractDemo/UnityLuaInteractDemo.cs:429-436 | calls registry[reference] with the integer value; stack back to its depth on success, one error object more on failure |
| `Events.ErrorSlot` | Assets/UnityLuaInteractDemo/UnityLuaInteractDemo.cs:435 | a zero-result call leaves nothing exactly when it returned, else one slot |
| `Events.ErrorsAppend` | Assets/UnityLuaInteractDemo/UnityLuaInteractDemo.cs:408-412 | the error slots of two successive dispatches are those of the first, then those of the second |
| `Events.ErrorsSnoc` | Assets/UnityLuaInteractDemo/UnityLuaInteractDemo.cs:408-412 | one more callback adds its error slot at the end |
| `Events.ErrorsStep` | Assets/UnityLuaInteractDemo/UnityLuaInteractDemo.cs:408-412 | after one more callback the stack is the earlier stack plus that callback's error slot |
| `Events.InvocationsStep` | Assets/UnityLuaInteractDemo/UnityLuaInteractDemo.cs:408-412 | after one more listener the trace is the earlier trace plus that listener's call |
| `Events.ErrorsBound` | Assets/UnityLuaInteractDemo/UnityLuaInteractDemo.cs:408-412 | a dispatch leaves at most one slot per listener, and none when every callback returned |
| `Events.Invocations` | Assets/UnityLuaInteractDemo/UnityLuaInteractDemo.cs:408-412 | one call per listener, in registration order, each to its referenced function with the value |
| `Events.InvocationsSnoc` | Assets/UnityLuaInteractDemo/UnityLuaInteractDemo.cs:408-412 | one more listener adds its call at the end |
| `Events.EventManager.constructor` | Assets/UnityLuaInteractDemo/UnityLuaInteractDemo.cs:403 | the event starts with no listeners |
| `Events.EventManager.Register` | Assets/UnityLuaInteractDemo/UnityLuaInteractDemo.cs:404-406 | appends the listener |
| `Events.EventManager.Clear` | Assets/UnityLuaInteractDemo/UnityLuaInteractDemo.cs:414-416 | removes all listeners |
| `Events.EventManager.Dispatch` | Assets/UnityLuaInteractDemo/UnityLuaInteractDemo.cs:408-412 | invokes each listener once, in order, with the value (nothing when there are none); the stack grows by the failed calls' error objects |
| `Demo.CodeSlot` | Assets/UnityLuaInteractDemo/UnityLuaInteractDemo.cs:59-74 | the slot DoLuaCode leaves: the first result (nil if none), the runtime error object, or the load message |
| `Demo.ChunkCalls` | Assets/UnityLuaInteractDemo/UnityLuaInteractDemo.cs:59-74 | the chunk is called exactly when it compiled |
| `Demo.Succeeds` | Assets/UnityLuaInteractDemo/UnityLuaInteractDemo.cs:59-74 | DoLuaCode's result: both luaL_loadbuffer and lua_pcall return 0 |
| `Demo.JoinArgs` | Assets/UnityLuaInteractDemo/UnityLuaInteractDemo.cs:137-141 | Print's line: argument texts in order, each followed by one space |
| `Demo.Piece` | Assets/UnityLuaInteractDemo/UnityLuaInteractDemo.cs:139-140 | one argument's contribution: its text (empty without one) and a space |
| `Demo.FillFunctions` | Assets/UnityLuaInteractDemo/UnityLuaInteractDemo.cs:312-316 | the foreach over a dictionary: each name mapped to its host function, later entries winning |
| `Demo.FuncTable` | Assets/UnityLuaInteractDemo/UnityLuaInteractDemo.cs:312-316 | a new table filled from the dictionary |
| `Demo.Entries` | Assets/UnityLuaInteractDemo/UnityLuaInteractDemo.cs:311 | a null dictionary adds no entries |
| `Demo.ClassRegistered` | Assets/UnityLuaInteractDemo/UnityLuaInteractDemo.cs:305-364 | the class shape: global class table of the static functions, its metatable holding __call only for a constructor, and registry[className] with __gc = gc and an __index table of the members |
| `Demo.ClassHeap` | Assets/UnityLuaInteractDemo/UnityLuaInteractDemo.cs:305-364 | the exact heap after a registration: class table and its metatable appended, the instance metatable (new, or existing) given __gc and __index, the new __index table last, every other table unchanged; 4 new tables, or 3 when the metatable existed |
| `Demo.ClassHeapTables` | Assets/UnityLuaInteractDemo/UnityLuaInteractDemo.cs:321-348 | the class metatable, the instance metatable and the __index table are distinct (separate lua_createtable calls); a new metatable is named after the class; an existing one keeps its other fields |
| `Demo.PopsWithinStack` | Assets/UnityLuaInteractDemo/UnityLuaInteractDemo.cs:100-105 | the two pops after a failed call stay within the caller's stack |
| `Demo.StartDepth` | Assets/UnityLuaInteractDemo/UnityLuaInteractDemo.cs:22-38 | the slots each routine of Start leaves, summed in call order |
| `Demo.UnityLuaInteractDemo.CacheValid` | Assets/UnityLuaInteractDemo/UnityLuaInteractDemo.cs:200-236 | every cached handle is a live block and names its own game object; no two handles share one |
| `Demo.UnityLuaInteractDemo.Held` | Assets/UnityLuaInteractDemo/UnityLuaInteractDemo.cs:20 | the state _globalL holds, if any |
| `Demo.JoinArgsAppend` | Assets/UnityLuaInteractDemo/UnityLuaInteractDemo.cs:137-141 | the joined text of two runs of arguments is the concatenation of their texts |
| `Demo.JoinArgsSnoc` | Assets/UnityLuaInteractDemo/UnityLuaInteractDemo.cs:137-141 | one more argument adds its text and a space at the end |
| `Demo.JoinArgsShape` | Assets/UnityLuaInteractDemo/UnityLuaInteractDemo.cs:137-141 | every argument adds at least its space; the line ends with a space; arguments without text give only spaces |
| `Demo.JoinArgsStringified` | Assets/UnityLuaInteractDemo/UnityLuaInteractDemo.cs:139 | the in-place number conversion does not change the joined text |
| `Demo.StringifyAll` | Assets/UnityLuaInteractDemo/UnityLuaInteractDemo.cs:137-141 | the stack after tostring on every slot: each slot converted, the length kept |
| `Demo.FuncTableKeys` | Assets/UnityLuaInteractDemo/UnityLuaInteractDemo.cs:312-316 | the filled table's keys are exactly the dictionary's names |
| `Demo.FuncTableLookup` | Assets/UnityLuaInteractDemo/UnityLuaInteractDemo.cs:312-316 | with distinct names, each name is present and mapped to its own function |
| `Demo.CallField` | Assets/UnityLuaInteractDemo/UnityLuaInteractDemo.cs:323-328 | the class metatable has __call exactly when a constructor is given, and then only that field |
| `Demo.PlainSuits` | Assets/UnityLuaInteractDemo/UnityLuaInteractDemo.cs:28-38 | an outcome that refers to no table or userdata suits every state |
| `Demo.CallLuaFuncUnderflowInput` | Assets/UnityLuaInteractDemo/UnityLuaInteractDemo.cs:96-105 | the input on which CallLuaFunc's two pops go below an empty stack: the chunk returns its closure and the call fails for lack of memory |
| `Demo.UnityLuaInteractDemo.constructor` | Assets/UnityLuaInteractDemo/UnityLuaInteractDemo.cs:20 | no state yet and an empty cache |
| `Demo.UnityLuaInteractDemo.DoLuaCode` | Assets/UnityLuaInteractDemo/UnityLuaInteractDemo.cs:59-74 | true exactly when load and call both return 0; no call after a load failure; one slot more on every path |
| `Demo.UnityLuaInteractDemo.DoLuaCodeTest` | Assets/UnityLuaInteractDemo/UnityLuaInteractDemo.cs:76-85 | on success the result is read and popped (depth unchanged); otherwise the error slot stays |
| `Demo.UnityLuaInteractDemo.CallLuaFunc` | Assets/UnityLuaInteractDemo/UnityLuaInteractDemo.cs:90-107 | calls the returned function with 101 and 202; depth unchanged on success, one caller slot lost when the call fails |
| `Demo.UnityLuaInteractDemo.CallWithArguments` | Assets/UnityLuaInteractDemo/UnityLuaInteractDemo.cs:98-100 | replaces the function on top by two results (status 0) or by one error object, and records its call with 101 and 202 |
| `Demo.UnityLuaInteractDemo.CallLuaFuncChecked` | Assets/UnityLuaInteractDemo/UnityLuaInteractDemo.cs:96-105 | with the status checked, the caller's stack is never touched |
| `Demo.UnityLuaInteractDemo.CallLuaGlobalFunc` | Assets/UnityLuaInteractDemo/UnityLuaInteractDemo.cs:109-130 | calls global addSub with 101 and 202; the chunk's result stays unless the call fails |
| `Demo.UnityLuaInteractDemo.Print` | Assets/UnityLuaInteractDemo/UnityLuaInteractDemo.cs:133-145 | the line joins arguments 1..gettop, each followed by one space; returns 0 results |
| `Demo.UnityLuaInteractDemo.RegisterCSFunction` | Assets/UnityLuaInteractDemo/UnityLuaInteractDemo.cs:147-152 | the global name holds the function; depth unchanged |
| `Demo.UnityLuaInteractDemo.LuaCallStaticCSFunc` | Assets/UnityLuaInteractDemo/UnityLuaInteractDemo.cs:158-165 | registers print and leaves DoLuaCode's slot |
| `Demo.UnityLuaInteractDemo.DebugLog` | Assets/UnityLuaInteractDemo/UnityLuaInteractDemo.cs:170-174 | logs the text of argument 1, returns 0 results |
| `Demo.UnityLuaInteractDemo.RegisterDebugClassToLua` | Assets/UnityLuaInteractDemo/UnityLuaInteractDemo.cs:181-189 | global Debug is a new table whose only field is Log; depth unchanged |
| `Demo.UnityLuaInteractDemo.CallDebugLog` | Assets/UnityLuaInteractDemo/UnityLuaInteractDemo.cs:194-197 | leaves DoLuaCode's slot |
| `Demo.UnityLuaInteractDemo.GameObjectConstructor` | Assets/UnityLuaInteractDemo/UnityLuaInteractDemo.cs:204-215 | adds exactly one cache entry, for a handle proved absent; the userdata gets the GameObject metatable; returns 1 |
| `Demo.UnityLuaInteractDemo.GameObjectSetActive` | Assets/UnityLuaInteractDemo/UnityLuaInteractDemo.cs:218-225 | on a cached handle sets that object's active flag; otherwise throws; the cache never changes |
| `Demo.UnityLuaInteractDemo.Gc` | Assets/UnityLuaInteractDemo/UnityLuaInteractDemo.cs:228-236 | removes only the handle, reports whether it was cached, returns 0 and never fails |
| `Demo.UnityLuaInteractDemo.RegisterGameObjectToLua` | Assets/UnityLuaInteractDemo/UnityLuaInteractDemo.cs:241-289 | the GameObject class shape (__call constructor, __gc, __index with SetActive); the exact heap ClassHeap; depth unchanged; only global GameObject and registry["GameObject"] change; a fresh metatable has exactly __name, __gc, __index |
| `Demo.UnityLuaInteractDemo.CallGameObjectSetActiveInLua` | Assets/UnityLuaInteractDemo/UnityLuaInteractDemo.cs:291-300 | leaves DoLuaCode's slot |
| `Demo.UnityLuaInteractDemo.SetFunctionField` | Assets/UnityLuaInteractDemo/UnityLuaInteractDemo.cs:313-315 | one name/function field set on the table on top; depth unchanged |
| `Demo.UnityLuaInteractDemo.SetFunctionFields` | Assets/UnityLuaInteractDemo/UnityLuaInteractDemo.cs:350-357 | the foreach adds all entries to the table on top; depth unchanged |
| `Demo.UnityLuaInteractDemo.CreateClassTable` | Assets/UnityLuaInteractDemo/UnityLuaInteractDemo.cs:309-332 | global className is a new table of the static functions whose new metatable has CallField(constructor) |
| `Demo.UnityLuaInteractDemo.CreateInstanceMetatable` | Assets/UnityLuaInteractDemo/UnityLuaInteractDemo.cs:339-363 | registry[className] gets __gc = gc and a new __index table of the members; nothing else changes |
| `Demo.UnityLuaInteractDemo.SetIndexTable` | Assets/UnityLuaInteractDemo/UnityLuaInteractDemo.cs:347-360 | the table on top gets __index = a new table of exactly the member functions; depth unchanged |
| `Demo.UnityLuaInteractDemo.RegisterCSClass` | Assets/UnityLuaInteractDemo/UnityLuaInteractDemo.cs:305-364 | depth unchanged; the class shape; the exact heap ClassHeap; a fresh metatable has exactly __name, __gc, __index; other tables, globals and registry entries unchanged |
| `Demo.UnityLuaInteractDemo.EventManagerRegister` | Assets/UnityLuaInteractDemo/UnityLuaInteractDemo.cs:368-378 | pops the callback into a fresh registry reference and appends one listener on _globalL for it |
| `Demo.UnityLuaInteractDemo.RegisterEventManagerToLua` | Assets/UnityLuaInteractDemo/UnityLuaInteractDemo.cs:380-384 | the EventManager class shape with static Register, no constructor, no members; the exact heap ClassHeap; only global EventManager and registry["EventManager"] change; a fresh metatable has exactly __name, __gc, __index |
| `Demo.UnityLuaInteractDemo.DoEventManagerLuaCode` | Assets/UnityLuaInteractDemo/UnityLuaInteractDemo.cs:386-394 | leaves DoLuaCode's slot |
| `Demo.UnityLuaInteractDemo.OnDestroy` | Assets/UnityLuaInteractDemo/UnityLuaInteractDemo.cs:42-47 | closes an open _globalL once (its close count goes up by one) and zeroes it |
| `Demo.UnityLuaInteractDemo.DestroyTwice` | Assets/UnityLuaInteractDemo/UnityLuaInteractDemo.cs:42-47 | after two OnDestroy calls the state has been closed exactly once |
| `Demo.UnityLuaInteractDemo.RegisterThenDispatch` | Assets/UnityLuaInteractDemo/UnityLuaInteractDemo.cs:372-376 | after registering f, a dispatch of v ends by calling f with v |
| `Demo.UnityLuaInteractDemo.Start` | Assets/UnityLuaInteractDemo/UnityLuaInteractDemo.cs:22-40 | the stack depth Start leaves is StartDepth: 5 slots when every script succeeds |
| `Demo.UnityLuaInteractDemo.StartCalls` | Assets/UnityLuaInteractDemo/UnityLuaInteractDemo.cs:28-31 | the depth after the four calling routines |
| `Demo.UnityLuaInteractDemo.StartClasses` | Assets/UnityLuaInteractDemo/UnityLuaInteractDemo.cs:32-38 | the registrations are balanced and the three scripts add one slot each |

## Left out

- Compiling and running Lua code. This is the foreign interpreter. `LoadBuffer` and `PCall` take the outcome as a parameter. A script's effect on globals, tables and the registry is not modelled; only the stack and the call trace change. So `CallLuaGlobalFunc` calls whatever `addSub` held before its chunk ran.
- The Lua VM calling host functions. Each host function (`Print`, `DebugLog`, `GameObjectConstructor`, `GameObjectSetActive`, `Gc`, `EventManagerRegister`) runs on a state whose stack is its own call frame.
- `Update` input polling, `Debug.Log` output, and real Unity `GameObject` behaviour. These are engine I/O. A game object is a name and an active flag.
- `LuaApi.LuaState.constructor`: the state starts with empty globals and an empty registry. It does not have the main thread and the globals table that `luaL_newstate` puts at registry[1] and registry[2]. Nor does it have what `luaL_openlibs` (line 27) adds: the standard-library globals such as `print`, `type` and `tostring`, and the registry entries `_LOADED`, `_PRELOAD` and the `FILE*` metatable. So the model hands out references from 1, where the real registry's first free reference comes after the predefined entries. Script execution is not modelled, so nothing in the model reads these entries.
- `lua_tonumber` reads at lines 103-104 and 126-127. They only feed logging and do not change the state.
- Floating point. A float is opaque and carried as its `tostring` text (`"101.0"`).
- `LuaApi.LuaState.SetTable`: it does not consult `__newindex` metamethods. The demo only sets fields of fresh tables or of its own metatables.
- `LuaApi.LuaState.Ref`: the registry free list is not modelled. References are fresh positive integers that are never reused.
- `LuaApi.LuaState.RawGetI`: only registry reads are modelled, because only those are used.
- `LuaApi.LuaState.PCall`: message handlers (`errfunc` other than 0) are not modelled.
- Userdata addresses are fresh identities that are never reused. The 4-byte block size is ignored.
- When the `~LuaFunction` finalizer and Lua's `__gc` run. Garbage collection decides that. `Events.LuaFunction.Finalize` and `Gc` are explicit calls.
- The path of `KeyNotFoundException` out of `GameObject_SetActive` through the Lua C frames that invoked it. The model stops at `Threw(KeyNotFound)`.
- Several components sharing the static `_globalL`, `_objectCache` and event. The model has one component, whose fields stand for these statics.
- `MonoPInvokeCallbackAttribute`. It is only a marshalling marker.
- `Demo.UnityLuaInteractDemo.Start`: its outcomes may not refer to tables or userdata. It requires that CallLuaFunc's call does not fail (which only a memory error can cause) right after a successful hello test, because the source then pops below the stack (see Findings).

## Findings

| source | as written | input that shows it | evidently intended | confidence | as-written member | corrected member |
|---|---|---|---|---|---|---|
| Assets/UnityLuaInteractDemo/UnityLuaInteractDemo.cs:100-105 | the status of `lua_pcall(L,2,2,0)` is ignored, and `lua_pop(L,2)` runs even when the call failed and left a single error object, so one slot of the caller is popped | in `Start`, the hello test succeeds and leaves an empty stack; the chunk returns its closure; calling it on two numbers fails with LUA_ERRMEM; the stack then holds only the error object and `lua_pop(L,2)` is an invalid `lua_settop` | pop the two results on success and only the error object on failure, leaving the caller's stack untouched | low, not executed | `Demo.UnityLuaInteractDemo.CallLuaFunc` | `Demo.UnityLuaInteractDemo.CallLuaFuncChecked` |
