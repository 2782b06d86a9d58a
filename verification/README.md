# C++ proxy generator from debug symbols — a Dafny model

The modelled code is the C++ proxy generator in `x_cpp_proxy.h`. It walks the debug-information symbols of a binary, read through the DIA SDK's `IDiaSymbol`. For every user-defined type (UDT) it prints a C++ declaration whose methods are thin wrappers. Each wrapper calls the original code by relative virtual address (RVA) or through a vtable slot. There are two routines:

- **`CppProxyPrintForwardDecl`** scans the dependency spellings of the resolved type graph. It forward-declares each pointed-to type that is a node of the graph, once per fixed name, and ends the block with a blank line when it printed anything.
- **`CppProxyPrintUDT`** prints one struct or class in a fixed sequence of stages:
  1. the header;
  2. the base list;
  3. the injected `void* _vtable` member, when the type introduces virtuals and overrides none;
  4. the data members, each with an optional zero-initialiser;
  5. one wrapper per function, chosen by classifying it as constructor, destructor or ordinary function;
  6. a trivial `ctor()`/`dtor()` when no real one was emitted;
  7. optionally, a `_guard_obj()` block of `static_assert`s on size and field offsets.

The model is imperative, in the same shape as the code. Each routine and each stage is a method that appends to a `seq<Item>` of abstract output items, one per printed declaration. The loops keep the code's flags and counters: `uniq`/`count`, `baseId`, `hasIntroVf`/`hasOverVf`, and `hasCtor`/`hasDtor`. Each method is proved equal to a specification function of its inputs. The properties the code promises are proved about those functions as lemmas.

Files:

- `dia.dfy` — the symbol records: UDT, data, function and type symbols, with the DIA constants the code compares against.
- `wstrings.dfy` — the string operations applied to names:
  - prefix and suffix tests;
  - `wcsstr`;
  - `replace(s, pat, "")`;
  - `trim`;
  - the split at the last `':'`.
- `output.dfy` — the output items, and the 32-bit truncation of the guard's casts.
- `seqs.dfy` — generic concatenate-the-pieces and filter functions, with their membership, count and order lemmas.
- `forward_decl.dfy` — `CppProxyPrintForwardDecl`.
- `udt_layout.dfy` — the base list, the vtable pointer, the data members and the layout guard.
- `udt_methods.dfy` — function classification, wrapper selection and the fallback ctor/dtor.
- `proxy_udt.dfy` — `CppProxyPrintUDT`: the gate on the symbol and the assembly of the stages.

## Model

| member | source | states |
|---|---|---|
| WStrings.RemoveAll | x_cpp_proxy.h:14 | Removing every occurrence of a pattern never lengthens the string or adds characters. A string without the pattern is returned unchanged. A removed one-character pattern no longer occurs. |
| WStrings.RemoveAllChar | x_cpp_proxy.h:14 | Removing a one-character pattern such as `"*"` keeps every other character, in order: the result is the input filtered by "is not that character". |
| WStrings.RemoveAllKeepsOthers | x_cpp_proxy.h:246-247 | A character outside the pattern is never removed: it occurs in the result as often as in the input. This covers the multi-character `uname::` qualifier as well. |
| WStrings.Trim | x_cpp_proxy.h:15 | The result has no white space at either end. It is a slice of the input that is surrounded only by white space. |
| WStrings.TrimKeepsAbsent | x_cpp_proxy.h:14-15 | A character absent before trimming is absent after it. |
| WStrings.InnerName | x_cpp_proxy.h:66-78 | `nameInner` is the part after the last `':'`. It contains no `':'`, is a suffix of the name preceded by `':'` when shorter, and is the whole name when it has no `':'`. |
| Output.Trunc32 | x_cpp_proxy.h:461 | The `(unsigned int)` cast yields a value below 2^32. It is congruent to the input modulo 2^32 and is the identity on that range. |
| ForwardDecl.DepKey | x_cpp_proxy.h:13-15 | The graph key of a dependency spelling contains no `'*'`. It is the spelling's other characters, in order, with the surrounding white space stripped: a slice padded only by white space, with no white space at either end. |
| ForwardDecl.AllDepsMembers | x_cpp_proxy.h:8-9 | A spelling is visited exactly when it is a dependency of some resolved node. |
| ForwardDecl.CandidatesMembers | x_cpp_proxy.h:11-27 | A declaration is a candidate exactly when it comes from a spelling that meets all of the filters. The spelling ends in `*`, is allowed, and does not start with `void`. Its stripped key is in the graph, and its fixed name is non-empty. The declaration carries the node's kind and the fixed name. |
| ForwardDecl.FirstOccurrences | x_cpp_proxy.h:5 | The `uniq` filter keeps only candidates, never a name already seen, and never one name twice. |
| ForwardDecl.FirstOccurrencesNames | x_cpp_proxy.h:21-22 | The names kept are exactly the candidate names not seen before. |
| ForwardDecl.StepOne | x_cpp_proxy.h:11-29 | One dependency either prints its declaration and records its name in `uniq`, or changes nothing. Either way, what the remaining spellings print is unaffected. |
| ForwardDecl.PrintDep | x_cpp_proxy.h:11-31 | One spelling prints its declaration when it passes every filter and its fixed name is new. `uniq` stays the set of printed names and `count` their number. Together with the spellings after it, it prints exactly the first occurrences. |
| ForwardDecl.PrintNodeDecls | x_cpp_proxy.h:9-31 | The inner loop keeps `uniq` equal to the printed names and `count` equal to their number. Together with the spellings after it, it prints exactly the first occurrences. |
| ForwardDecl.PrintDecls | x_cpp_proxy.h:5-33 | The outer loop prints exactly the first occurrence of each qualifying name over all resolved nodes, and `count` is the number printed. |
| ForwardDecl.PrintForwardDecl | x_cpp_proxy.h:3-37 | The output is the forward-declaration block. No fixed name is declared twice. The trailing blank line is printed exactly when a declaration was, and it is last. |
| ForwardDecl.BlockShape | x_cpp_proxy.h:34-36 | In the block, names are distinct, the blank line appears iff some declaration does, and the block ends with it. |
| ForwardDecl.DeclaredIffQualifies | x_cpp_proxy.h:11-22 | A name is declared exactly when some dependency of some resolved node passes every filter and has that fixed name. |
| ForwardDecl.DeclaredKindFromGraph | x_cpp_proxy.h:17-27 | Every declaration names a graph node reached through a qualifying dependency, with that node's kind. |
| UdtLayout.PrintBaseList | x_cpp_proxy.h:83-101 | One base clause per base, in order, with the fixed base name. The first base gets `" : "` and every later one `", "`. |
| UdtLayout.PrintVtablePointer | x_cpp_proxy.h:107-141 | `_vtable` is printed exactly when some virtual is introducing and no virtual is an override. It is printed at most once. |
| UdtLayout.FieldInit | x_cpp_proxy.h:180-208 | An initialiser only with zero-initialisation on and a non-reference type. An enum gets the cast form. An array gets `{}` iff its element is a base or pointer type. A base or pointer gets `= 0`. |
| UdtLayout.MembersInOrder | x_cpp_proxy.h:146-152 | The member data symbols are the data symbols of kind `DataIsMember`, each as often as it is enumerated and nothing else. They keep enumeration order: the i-th member is the data symbol at the i-th kept position, and those positions rise strictly and cover every member. |
| UdtLayout.MemberFieldsMembers | x_cpp_proxy.h:143-214 | The fields are exactly those of the member data symbols, each with the initialiser its type calls for. |
| UdtLayout.MemberFieldsInOrder | x_cpp_proxy.h:143-214 | The fields follow enumeration order, one per member: the i-th field is that of the member data symbol at the i-th kept position. |
| UdtLayout.PrintDataMembers | x_cpp_proxy.h:143-214 | The data loop's nested conditions print exactly the member fields with the initialisers `FieldInit` chooses. |
| UdtLayout.OffsetAsserts | x_cpp_proxy.h:468-489 | The guard's middle part holds only offset assertions. |
| UdtLayout.OffsetAssertsMembers | x_cpp_proxy.h:468-489 | There is an offset assertion exactly for each member that is `this`-relative, has an offset and is not a reference. Its offset is cast to 32 bits. |
| UdtLayout.PrintGuard | x_cpp_proxy.h:454-494 | The guard is the opening line, the 32-bit size assertion, the offset assertions and the closing line. |
| UdtMethods.DtorCallOf | x_cpp_proxy.h:339-344 | A destructor calls through the vtable slot exactly when it is virtual, and otherwise at its RVA. The slot is the `vfid` the resolver left, whether the lookup succeeded or not. |
| UdtMethods.ClassifyFunction | x_cpp_proxy.h:246-285 | The classification equals the rules: a dtor iff the name contains `~`; a ctor iff the name is `nameInner` or the undecorated name contains `Inner::Inner(`; static if flagged, or if an ordinary function is `LocIsStatic` with an RVA, pure and not virtual. |
| UdtMethods.FuncItems | x_cpp_proxy.h:287-441 | One function prints only markers and wrappers, never a trivial ctor or dtor. |
| UdtMethods.FuncItemsMarker | x_cpp_proxy.h:287-296 | The `#error INVALID VFID` marker is printed, first, exactly for a virtual whose slot lookup failed. |
| UdtMethods.FuncItemsCtor | x_cpp_proxy.h:309-327 | A constructor wrapper is printed exactly for a ctor that is not optimised away, and it calls that ctor's RVA. |
| UdtMethods.FuncItemsDtor | x_cpp_proxy.h:329-348 | A destructor wrapper is printed exactly for a dtor that is not optimised away or that is virtual with a found slot. It makes the call `DtorCallOf` chooses. |
| UdtMethods.FuncItemsDirect | x_cpp_proxy.h:352-417 | A direct-call wrapper is printed exactly for an ordinary function that is not optimised away. Its name gets `_impl` exactly when the function is virtual, and it carries the static flag, calling convention and RVA. |
| UdtMethods.FuncItemsRedirect | x_cpp_proxy.h:421-441 | A slot redirector is printed exactly for an ordinary virtual when redirectors are compiled in. |
| UdtMethods.PrintFunction | x_cpp_proxy.h:287-441 | The wrapper stage prints the items `FuncItems` specifies. It reports a ctor (dtor) wrapper exactly when one was printed. |
| UdtMethods.PrintEntry | x_cpp_proxy.h:238-442 | One loop iteration prints nothing for `__vecDelDtor`, and otherwise the classified function's items. |
| UdtMethods.EntryItems | x_cpp_proxy.h:238-442 | One iteration prints only markers and wrappers, never a trivial ctor or dtor. |
| UdtMethods.MethodItemsKinds | x_cpp_proxy.h:236-443 | Everything the function loop prints is a marker, a wrapper or a redirector, never a trivial ctor or dtor. |
| UdtMethods.PrintNext | x_cpp_proxy.h:237-442 | One iteration extends the output by the next function's items. It keeps `hasCtor` (`hasDtor`) true exactly when a ctor (dtor) wrapper has been printed. |
| UdtMethods.PrintFunctions | x_cpp_proxy.h:236-443 | The function loop prints every function's items in enumeration order. `hasCtor` (`hasDtor`) ends true exactly when a ctor (dtor) wrapper was printed. |
| UdtMethods.PrintMethods | x_cpp_proxy.h:216-452 | The methods stage prints every function's items in order, then the trivial ctor/dtor exactly when no real one was printed. |
| UdtMethods.FuncItemsWrappers | x_cpp_proxy.h:309-348 | A function's items contain a ctor (dtor) wrapper exactly under the conditions of lines 309 and 329. |
| UdtMethods.NoTrivialItems | x_cpp_proxy.h:238-442 | The function loop never prints a trivial ctor or dtor. |
| UdtMethods.EntryWrappers | x_cpp_proxy.h:244-348 | One iteration prints a ctor (dtor) wrapper exactly for a non-`__vecDelDtor` function that earns one. |
| UdtMethods.MethodItemsCtor | x_cpp_proxy.h:309-310 | `hasCtor` ends true exactly when some function earned a constructor wrapper. |
| UdtMethods.MethodItemsDtor | x_cpp_proxy.h:329-330 | `hasDtor` ends true exactly when some function earned a destructor wrapper. |
| UdtMethods.MethodsBlockWrappers | x_cpp_proxy.h:445-451 | The trivial ctor (dtor) is printed exactly when no function earned a wrapper. Either a real or a trivial one is always present. |
| UdtMethods.InvalidVirtualMarked | x_cpp_proxy.h:291-296 | The methods stage marks exactly the virtuals, other than `__vecDelDtor`, whose slot lookup failed. |
| UdtMethods.VecDelDtorIgnored | x_cpp_proxy.h:244 | The vector-deleting destructor leaves no trace: the output is that of the other functions. |
| ProxyUdt.PrintUdt | x_cpp_proxy.h:39-498 | The output is the UDT block: header, bases, body stages, optional guard, closing line and blank line. |
| ProxyUdt.BlockFrame | x_cpp_proxy.h:46-59 | Nothing is printed exactly when the symbol's tag cannot be read or is not a UDT, its kind is not struct or class, or its name cannot be read. Otherwise output starts with the header and ends with the closing line and a blank line. |
| ProxyUdt.VtablePointerIff | x_cpp_proxy.h:107-141 | `_vtable` appears exactly in printed types that introduce a virtual and override none. It appears at most once and before every field. |
| ProxyUdt.FieldsFromMembers | x_cpp_proxy.h:143-214 | A field appears exactly for each member data symbol of a printed type, with its chosen initialiser. |
| ProxyUdt.GuardOnlyWhenRequested | x_cpp_proxy.h:454-494 | The guard, its size assertion and its offset assertions appear only when requested. The offset assertions cover exactly the guarded members. |
| ProxyUdt.CtorAndDtorPresent | x_cpp_proxy.h:445-451 | Every printed type holds a constructor and a destructor. The trivial one appears exactly when no function earned a wrapper. |
| ProxyUdt.ErrorMarkerIff | x_cpp_proxy.h:291-296 | A printed type holds `#error INVALID VFID <type>::<f>` exactly for its virtuals `f`, other than `__vecDelDtor`, whose slot lookup failed. |

## Left out

- The DIA COM accessors (`get_symTag`, `get_name`, `get_type`, …) and `SymbolEnumerator` are foreign calls. Their results are fields of the symbol datatypes, and enumerations are sequences in enumeration order.
- An accessor that fails partway (a null `Bstr`, an unset output variable) is not modelled. Only the three gates of lines 46-59 are.
- `fixName` and `IsAllowedName` are not part of this model; their bodies are not in the file. They are function-valued parameters with no assumptions.
- `replace`, `trim`, `startsWith` and `endsWith` are not part of this model as written either. They are given their evident meanings in `wstrings.dfy`:
  - `replace` removes every non-overlapping occurrence, scanning left to right;
  - `trim` strips ASCII white space at both ends.
- WStrings.RemoveAll: the result is pinned down exactly only for a one-character pattern (`WStrings.RemoveAllChar`). For the multi-character `uname::` qualifier, the lemmas state only that every other character survives as often as before (`WStrings.RemoveAllKeepsOthers`). Which occurrences a left-to-right scan removes is stated only by the definition itself.
- `GetVirtualFuncInfo` is not part of this model. Each function symbol carries what it reports as an oracle field `lookup: VLookup`: the boolean result and the values it leaves in its `vtpo` and `vfid` out-parameters. Nothing is assumed about `vfid` after a failed lookup. A virtual destructor or redirector whose lookup failed still calls through `get_vfp(this, vfid)` with that value (lines 339-341 and 434), after the `#error` marker; the model does the same.
- `PrintTypeX`, `PrintPointerTypeX`, `PrintArraySizeX`, `PrintFunctionArgsX`, `rgUdtKind`, `rgCallConv`, `_drva`, `xcast` and `get_vfp` are not modelled. Items record the kind, name, type symbol, calling-convention index, RVA or slot, not their text.
- The exact C++ spelling and the `wprintf` formatting are not modelled. Output is a sequence of abstract items, one per printed declaration or line.
- The dependency-graph builder that fills the resolved nodes and the graph is not part of this model. Both are inputs: nodes are sequences of dependency spellings, and the graph maps names to UDT kinds.
- The `GEN_VFUNC_REDIR` preprocessor branch is a boolean parameter `redirectors`.
- `namePrefix` (lines 70 and 75) is computed but never used, so it is not modelled. The same goes for the unused reads `funcId`, `len`, `dwSect` and `dwOff` in the method loop, and for `hasDefConstructor` and `addFakeVtp`.
- RVAs, slot indices and calling conventions are `nat`, not 32-bit `DWORD`s. The code never does arithmetic on them, so no wrap-around arises. Only the guard's casts of the 64-bit length and the signed offset are truncated, by `Output.Trunc32`.
