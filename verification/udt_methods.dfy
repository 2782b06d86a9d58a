/** The method stage of a UDT proxy: each function child is classified as
    constructor, destructor or ordinary function and gets the wrapper its
    classification, location and virtual slot call for; a trivial
    constructor and destructor are synthesised when none was emitted. */
module UdtMethods {
  import opened Dia
  import opened WStrings
  import opened Output
  import opened Seqs

  /** The compiler's vector-deleting destructor helper, never surfaced. */
  predicate IsVecDelDtor(f: FuncSym)
  {
    Contains(f.name, "__vecDelDtor")
  }

  /** The substring a constructor's undecorated name contains: "Inner::Inner(". */
  function CtorPrefix(nameInner: string): string
  {
    nameInner + "::" + nameInner + "("
  }

  predicate IsDtor(f: FuncSym)
  {
    Contains(f.name, "~")
  }

  /** A constructor is named like the unqualified type name, or its
      undecorated name contains "Inner::Inner(". */
  predicate IsCtor(f: FuncSym, uname: string)
  {
    f.name == InnerName(uname) || Contains(f.undecoratedName, CtorPrefix(InnerName(uname)))
  }

  /** An ordinary function is neither constructor nor destructor. */
  predicate IsPlainFunc(f: FuncSym, uname: string)
  {
    !IsCtor(f, uname) && !IsDtor(f)
  }

  /** A function without a location was optimised away and has no address. */
  predicate IsOptimized(f: FuncSym)
  {
    f.locationType == LocIsNull
  }

  /** Static as the symbol says, or an ordinary function with a static
      location, an address, and the pure-but-not-virtual flags some
      debug-info producers give static members. */
  predicate IsStaticFunc(f: FuncSym, uname: string)
  {
    f.isStatic
    || (IsPlainFunc(f, uname) && f.locationType == LocIsStatic && f.rva != 0 && f.isPure && !f.isVirtual)
  }

  /** A virtual whose slot the resolver found. */
  predicate IsValidVirtual(f: FuncSym)
  {
    f.isVirtual && f.lookup.found
  }

  /** The slot index a wrapper calls through: what the resolver left in
      `vfid` for a virtual, whether the slot was found or not, and the
      initial 0 otherwise. */
  function SlotIndex(f: FuncSym): nat
  {
    if f.isVirtual then f.lookup.vfid else 0
  }

  /** The function name with every "<uname>::" qualifier removed. */
  function FixedFuncName(f: FuncSym, uname: string): string
  {
    RemoveAll(f.name, uname + "::")
  }

  /** What the loop body derives from a function symbol before printing:
      its classification and its name with the type qualifier removed. */
  datatype Traits = Traits(isCtor: bool, isDtor: bool, isStatic: bool, fixedName: string)
  {
    predicate IsFunc()
    {
      !isCtor && !isDtor
    }
  }

  function TraitsOf(f: FuncSym, uname: string): Traits
  {
    Traits(IsCtor(f, uname), IsDtor(f), IsStaticFunc(f, uname), FixedFuncName(f, uname))
  }

  predicate IsMethodItem(it: Item)
  {
    || it.ErrorMarker? || it.CtorWrapper? || it.DtorWrapper? || it.FuncWrapper?
    || it.VirtualRedirector? || it.TrivialCtor? || it.TrivialDtor?
  }

  /** The call a destructor wrapper makes: through the slot exactly when
      the destructor is virtual, otherwise at its address. */
  function DtorCallOf(f: FuncSym): (call: DtorCall)
    ensures call.ViaSlot? <==> f.isVirtual
    ensures call.ViaRva? ==> call.rva == f.rva
    ensures f.isVirtual ==> call == ViaSlot(f.lookup.vfid)
  {
    if f.isVirtual then ViaSlot(SlotIndex(f)) else ViaRva(f.rva)
  }

  /** The name of a direct-call wrapper: "_impl" is appended to virtuals. */
  function WrapperName(f: FuncSym, t: Traits): string
  {
    t.fixedName + (if f.isVirtual then "_impl" else "")
  }

  /** The error marker of a virtual whose slot was not found. */
  function MarkerPart(f: FuncSym, nameFixed: string): seq<Item>
  {
    if f.isVirtual && !f.lookup.found then [ErrorMarker(nameFixed, f.name)] else []
  }

  /** The constructor wrapper of a constructor that has an address. */
  function CtorPart(f: FuncSym, t: Traits): seq<Item>
  {
    if t.isCtor && !IsOptimized(f) then [CtorWrapper(f.rva)] else []
  }

  /** The destructor wrapper of a destructor with an address or a found slot. */
  function DtorPart(f: FuncSym, t: Traits): seq<Item>
  {
    if t.isDtor && (!IsOptimized(f) || IsValidVirtual(f)) then [DtorWrapper(DtorCallOf(f))] else []
  }

  /** The direct-call wrapper of an ordinary function that has an address. */
  function DirectPart(f: FuncSym, t: Traits): seq<Item>
  {
    if t.IsFunc() && !IsOptimized(f)
    then [FuncWrapper(WrapperName(f, t), t.isStatic, f.callConv, f.rva)]
    else []
  }

  /** The slot-based redirector of an ordinary virtual, when enabled. */
  function RedirectPart(f: FuncSym, t: Traits, redirectors: bool): seq<Item>
  {
    if redirectors && f.isVirtual && t.IsFunc()
    then [VirtualRedirector(t.fixedName, SlotIndex(f))]
    else []
  }

  /** What one (not vector-deleting) function contributes, in emission order. */
  function FuncItems(f: FuncSym, t: Traits, nameFixed: string, redirectors: bool): (r: seq<Item>)
    ensures forall k :: 0 <= k < |r| ==> IsMethodItem(r[k]) && !r[k].TrivialCtor? && !r[k].TrivialDtor?
  {
    MarkerPart(f, nameFixed) + CtorPart(f, t) + DtorPart(f, t) + DirectPart(f, t)
    + RedirectPart(f, t, redirectors)
  }

  /** The error marker comes first, and exactly for a virtual whose slot was not found. */
  lemma FuncItemsMarker(f: FuncSym, t: Traits, nameFixed: string, redirectors: bool)
    ensures var r := FuncItems(f, t, nameFixed, redirectors);
            && (ErrorMarker(nameFixed, f.name) in r <==> f.isVirtual && !f.lookup.found)
            && (forall k :: 0 <= k < |r| && r[k].ErrorMarker? ==> k == 0 && r[k] == ErrorMarker(nameFixed, f.name))
  {
    var pre: seq<Item> := [];
    var mid := MarkerPart(f, nameFixed);
    var post := CtorPart(f, t) + DtorPart(f, t) + DirectPart(f, t) + RedirectPart(f, t, redirectors);
    assert FuncItems(f, t, nameFixed, redirectors) == pre + mid + post;
    KindInMiddle(pre, mid, post, (x: Item) => x.ErrorMarker?);
  }

  /** A constructor wrapper exactly for a constructor that has an address, called at that address. */
  lemma FuncItemsCtor(f: FuncSym, t: Traits, nameFixed: string, redirectors: bool)
    ensures var r := FuncItems(f, t, nameFixed, redirectors);
            && (CtorWrapper(f.rva) in r <==> t.isCtor && !IsOptimized(f))
            && (forall k :: 0 <= k < |r| && r[k].CtorWrapper? ==> r[k] == CtorWrapper(f.rva))
  {
    var pre := MarkerPart(f, nameFixed);
    var mid := CtorPart(f, t);
    var post := DtorPart(f, t) + DirectPart(f, t) + RedirectPart(f, t, redirectors);
    assert FuncItems(f, t, nameFixed, redirectors) == pre + mid + post;
    KindInMiddle(pre, mid, post, (x: Item) => x.CtorWrapper?);
  }

  /** A destructor wrapper exactly for a destructor with an address or a
      found slot; it calls through the slot exactly when virtual. */
  lemma FuncItemsDtor(f: FuncSym, t: Traits, nameFixed: string, redirectors: bool)
    ensures var r := FuncItems(f, t, nameFixed, redirectors);
            && (DtorWrapper(DtorCallOf(f)) in r <==> t.isDtor && (!IsOptimized(f) || IsValidVirtual(f)))
            && (forall k :: 0 <= k < |r| && r[k].DtorWrapper? ==> r[k] == DtorWrapper(DtorCallOf(f)))
  {
    var pre := MarkerPart(f, nameFixed) + CtorPart(f, t);
    var mid := DtorPart(f, t);
    var post := DirectPart(f, t) + RedirectPart(f, t, redirectors);
    assert FuncItems(f, t, nameFixed, redirectors) == pre + mid + post;
    KindInMiddle(pre, mid, post, (x: Item) => x.DtorWrapper?);
  }

  /** A direct-call wrapper exactly for an ordinary function that has an
      address; its name carries "_impl" exactly when the function is virtual. */
  lemma FuncItemsDirect(f: FuncSym, t: Traits, nameFixed: string, redirectors: bool)
    ensures var r := FuncItems(f, t, nameFixed, redirectors);
            && (FuncWrapper(WrapperName(f, t), t.isStatic, f.callConv, f.rva) in r <==> t.IsFunc() && !IsOptimized(f))
            && (forall k :: 0 <= k < |r| && r[k].FuncWrapper? ==>
                  r[k] == FuncWrapper(WrapperName(f, t), t.isStatic, f.callConv, f.rva))
  {
    var pre := MarkerPart(f, nameFixed) + CtorPart(f, t) + DtorPart(f, t);
    var mid := DirectPart(f, t);
    var post := RedirectPart(f, t, redirectors);
    assert FuncItems(f, t, nameFixed, redirectors) == pre + mid + post;
    KindInMiddle(pre, mid, post, (x: Item) => x.FuncWrapper?);
  }

  /** A virtual redirector only when enabled, for an ordinary virtual. */
  lemma FuncItemsRedirect(f: FuncSym, t: Traits, nameFixed: string, redirectors: bool)
    ensures var r := FuncItems(f, t, nameFixed, redirectors);
            && (VirtualRedirector(t.fixedName, SlotIndex(f)) in r <==> redirectors && f.isVirtual && t.IsFunc())
            && (forall k :: 0 <= k < |r| && r[k].VirtualRedirector? ==>
                  r[k] == VirtualRedirector(t.fixedName, SlotIndex(f)))
  {
    var pre := MarkerPart(f, nameFixed) + CtorPart(f, t) + DtorPart(f, t) + DirectPart(f, t);
    var mid := RedirectPart(f, t, redirectors);
    var post: seq<Item> := [];
    assert FuncItems(f, t, nameFixed, redirectors) == pre + mid + post;
    KindInMiddle(pre, mid, post, (x: Item) => x.VirtualRedirector?);
  }

  /** What one function symbol contributes: nothing for the vector-deleting destructor. */
  function EntryItems(f: FuncSym, uname: string, nameFixed: string, redirectors: bool): (r: seq<Item>)
    ensures forall k :: 0 <= k < |r| ==> IsMethodItem(r[k]) && !r[k].TrivialCtor? && !r[k].TrivialDtor?
  {
    if IsVecDelDtor(f) then [] else FuncItems(f, TraitsOf(f, uname), nameFixed, redirectors)
  }

  /** The generator MethodItems concatenates. */
  function Entry(uname: string, nameFixed: string, redirectors: bool): FuncSym -> seq<Item>
  {
    f => EntryItems(f, uname, nameFixed, redirectors)
  }

  /** The wrappers and markers of all functions, in enumeration order. */
  function MethodItems(funcs: seq<FuncSym>, uname: string, nameFixed: string, redirectors: bool): seq<Item>
  {
    ConcatMap(funcs, Entry(uname, nameFixed, redirectors))
  }

  /** Every item of the functions' output is a wrapper, a redirector or a marker. */
  lemma MethodItemsKinds(funcs: seq<FuncSym>, uname: string, nameFixed: string, redirectors: bool, it: Item)
    requires it in MethodItems(funcs, uname, nameFixed, redirectors)
    ensures IsMethodItem(it) && !it.TrivialCtor? && !it.TrivialDtor?
  {
    var g := Entry(uname, nameFixed, redirectors);
    ConcatMapMembers(funcs, g, it);
    var k :| 0 <= k < |funcs| && it in g(funcs[k]);
    var r := EntryItems(funcs[k], uname, nameFixed, redirectors);
    var j :| 0 <= j < |r| && r[j] == it;
  }

  /** No function prints a trivial constructor or destructor. */
  lemma NoTrivialItems(funcs: seq<FuncSym>, uname: string, nameFixed: string, redirectors: bool)
    ensures TrivialCtor !in MethodItems(funcs, uname, nameFixed, redirectors)
    ensures TrivialDtor !in MethodItems(funcs, uname, nameFixed, redirectors)
  {
    var g := Entry(uname, nameFixed, redirectors);
    ConcatMapMembers(funcs, g, TrivialCtor);
    ConcatMapMembers(funcs, g, TrivialDtor);
    forall k | 0 <= k < |funcs|
      ensures TrivialCtor !in g(funcs[k]) && TrivialDtor !in g(funcs[k])
    {
      var r := g(funcs[k]);
      assert forall j :: 0 <= j < |r| ==> !r[j].TrivialCtor? && !r[j].TrivialDtor?;
    }
  }

  predicate HasCtorWrapper(items: seq<Item>)
  {
    exists k :: 0 <= k < |items| && items[k].CtorWrapper?
  }

  predicate HasDtorWrapper(items: seq<Item>)
  {
    exists k :: 0 <= k < |items| && items[k].DtorWrapper?
  }

  /** The trivial constructor and destructor stand in for missing ones. */
  function Fallbacks(items: seq<Item>): seq<Item>
  {
    (if HasCtorWrapper(items) then [] else [TrivialCtor])
    + (if HasDtorWrapper(items) then [] else [TrivialDtor])
  }

  function MethodsBlock(funcs: seq<FuncSym>, uname: string, nameFixed: string, redirectors: bool): seq<Item>
  {
    var items := MethodItems(funcs, uname, nameFixed, redirectors);
    items + Fallbacks(items)
  }

  /** The classification the loop body computes for one function symbol. */
  method ClassifyFunction(f: FuncSym, uname: string, nameInner: string, ctorPrefix: string, funcNamespace: string)
    returns (t: Traits)
    requires nameInner == InnerName(uname) && ctorPrefix == CtorPrefix(nameInner)
    requires funcNamespace == uname + "::"
    ensures t == TraitsOf(f, uname)
  {
    var fixedFuncName := RemoveAll(f.name, funcNamespace);
    var isDtor := Contains(f.name, "~");
    var isCtor := f.name == nameInner;
    if Contains(f.undecoratedName, ctorPrefix) {
      isCtor := true;
    }
    var isFunc := !(isCtor || isDtor);
    var isStatic := f.isStatic;
    if isFunc && f.locationType == LocIsStatic && f.rva != 0 && f.isPure && !f.isVirtual {
      isStatic := true;
    }
    t := Traits(isCtor, isDtor, isStatic, fixedFuncName);
  }

  /** The printing part of the methods loop body for one classified
      function symbol: the items it prints and whether it printed a
      constructor or a destructor wrapper. */
  method PrintFunction(f: FuncSym, t: Traits, nameFixed: string, redirectors: bool)
    returns (items: seq<Item>, ctorPrinted: bool, dtorPrinted: bool)
    ensures items == FuncItems(f, t, nameFixed, redirectors)
    ensures ctorPrinted <==> t.isCtor && !IsOptimized(f)
    ensures dtorPrinted <==> t.isDtor && (!IsOptimized(f) || IsValidVirtual(f))
  {
    items := [];
    ctorPrinted, dtorPrinted := false, false;
    var isFunc := !(t.isCtor || t.isDtor);
    var isOptimized := f.locationType == LocIsNull;
    var isValidVirtual := false;
    var vfid := 0;
    if f.isVirtual {
      isValidVirtual, vfid := f.lookup.found, f.lookup.vfid;
      if !isValidVirtual {
        items := items + [ErrorMarker(nameFixed, f.name)];
      }
    }
    assert vfid == SlotIndex(f);
    assert items == MarkerPart(f, nameFixed);
    if t.isCtor && !isOptimized {
      ctorPrinted := true;
      items := items + [CtorWrapper(f.rva)];
    }
    assert items == MarkerPart(f, nameFixed) + CtorPart(f, t);
    if t.isDtor && (!isOptimized || (f.isVirtual && isValidVirtual)) {
      dtorPrinted := true;
      var call := if f.isVirtual then ViaSlot(vfid) else ViaRva(f.rva);
      assert call == DtorCallOf(f);
      items := items + [DtorWrapper(call)];
    }
    assert items == MarkerPart(f, nameFixed) + CtorPart(f, t) + DtorPart(f, t);
    if isFunc && !isOptimized {
      var wrapperName := if f.isVirtual then t.fixedName + "_impl" else t.fixedName;
      assert wrapperName == WrapperName(f, t);
      items := items + [FuncWrapper(wrapperName, t.isStatic, f.callConv, f.rva)];
    }
    assert items == MarkerPart(f, nameFixed) + CtorPart(f, t) + DtorPart(f, t) + DirectPart(f, t);
    if redirectors && f.isVirtual && isFunc {
      items := items + [VirtualRedirector(t.fixedName, vfid)];
    }
  }

  /** One iteration of the methods loop: the vector-deleting destructor is
      skipped, every other function classified and printed. */
  method PrintEntry(f: FuncSym, uname: string, nameInner: string, ctorPrefix: string,
                    funcNamespace: string, nameFixed: string, redirectors: bool)
    returns (items: seq<Item>, ctorPrinted: bool, dtorPrinted: bool)
    requires nameInner == InnerName(uname) && ctorPrefix == CtorPrefix(nameInner)
    requires funcNamespace == uname + "::"
    ensures items == EntryItems(f, uname, nameFixed, redirectors)
    ensures ctorPrinted <==> HasCtorWrapper(items)
    ensures dtorPrinted <==> HasDtorWrapper(items)
  {
    items, ctorPrinted, dtorPrinted := [], false, false;
    if !Contains(f.name, "__vecDelDtor") {
      var t := ClassifyFunction(f, uname, nameInner, ctorPrefix, funcNamespace);
      items, ctorPrinted, dtorPrinted := PrintFunction(f, t, nameFixed, redirectors);
      FuncItemsWrappers(f, t, nameFixed, redirectors);
    }
  }

  /** The methods block of CppProxyPrintUDT. */
  method PrintMethods(funcs: seq<FuncSym>, uname: string, nameFixed: string, redirectors: bool)
    returns (out: seq<Item>)
    ensures out == MethodsBlock(funcs, uname, nameFixed, redirectors)
  {
    var hasCtor, hasDtor;
    out, hasCtor, hasDtor := PrintFunctions(funcs, uname, nameFixed, redirectors);
    if !hasCtor {
      out := out + [TrivialCtor];
    }
    if !hasDtor {
      out := out + [TrivialDtor];
    }
  }

  /** The loop over the function children: their wrappers and markers in
      enumeration order, and whether a constructor or a destructor wrapper
      was among them. */
  method PrintFunctions(funcs: seq<FuncSym>, uname: string, nameFixed: string, redirectors: bool)
    returns (out: seq<Item>, hasCtor: bool, hasDtor: bool)
    ensures out == MethodItems(funcs, uname, nameFixed, redirectors)
    ensures hasCtor <==> HasCtorWrapper(out)
    ensures hasDtor <==> HasDtorWrapper(out)
  {
    hasCtor, hasDtor := false, false;
    // the "__cdecl " the prefix starts from is overwritten by the assignment after it
    var nameInner := InnerName(uname);
    var ctorPrefix := CtorPrefix(nameInner);
    var funcNamespace := uname + "::";
    out := [];
    var i := 0;
    while i < |funcs|
      invariant 0 <= i <= |funcs|
      invariant out == MethodItems(funcs[..i], uname, nameFixed, redirectors)
      invariant hasCtor <==> HasCtorWrapper(out)
      invariant hasDtor <==> HasDtorWrapper(out)
    {
      out, hasCtor, hasDtor :=
        PrintNext(funcs, i, uname, nameInner, ctorPrefix, funcNamespace, nameFixed, redirectors, out, hasCtor, hasDtor);
      i := i + 1;
    }
    assert funcs[..i] == funcs;
  }

  /** One iteration of the loop over the function children: the output and
      the two flags move from the first `i` functions to the first `i + 1`. */
  method PrintNext(funcs: seq<FuncSym>, i: nat, uname: string, nameInner: string, ctorPrefix: string,
                   funcNamespace: string, nameFixed: string, redirectors: bool,
                   out0: seq<Item>, hasCtor0: bool, hasDtor0: bool)
    returns (out: seq<Item>, hasCtor: bool, hasDtor: bool)
    requires i < |funcs|
    requires nameInner == InnerName(uname) && ctorPrefix == CtorPrefix(nameInner)
    requires funcNamespace == uname + "::"
    requires out0 == MethodItems(funcs[..i], uname, nameFixed, redirectors)
    requires (hasCtor0 <==> HasCtorWrapper(out0)) && (hasDtor0 <==> HasDtorWrapper(out0))
    ensures out == MethodItems(funcs[..i + 1], uname, nameFixed, redirectors)
    ensures (hasCtor <==> HasCtorWrapper(out)) && (hasDtor <==> HasDtorWrapper(out))
  {
    var items, ctorPrinted, dtorPrinted :=
      PrintEntry(funcs[i], uname, nameInner, ctorPrefix, funcNamespace, nameFixed, redirectors);
    ConcatMapStep(funcs, i, Entry(uname, nameFixed, redirectors));
    HasWrapperAppend(out0, items);
    out := out0 + items;
    hasCtor := hasCtor0 || ctorPrinted;
    hasDtor := hasDtor0 || dtorPrinted;
  }


  /** FuncItems' wrappers in the terms of HasCtorWrapper and HasDtorWrapper. */
  lemma FuncItemsWrappers(f: FuncSym, t: Traits, nameFixed: string, redirectors: bool)
    ensures HasCtorWrapper(FuncItems(f, t, nameFixed, redirectors)) <==> t.isCtor && !IsOptimized(f)
    ensures HasDtorWrapper(FuncItems(f, t, nameFixed, redirectors)) <==>
              t.isDtor && (!IsOptimized(f) || IsValidVirtual(f))
  {
    var r := FuncItems(f, t, nameFixed, redirectors);
    FuncItemsCtor(f, t, nameFixed, redirectors);
    FuncItemsDtor(f, t, nameFixed, redirectors);
    if CtorWrapper(f.rva) in r {
      var k :| 0 <= k < |r| && r[k] == CtorWrapper(f.rva);
    }
    if DtorWrapper(DtorCallOf(f)) in r {
      var k :| 0 <= k < |r| && r[k] == DtorWrapper(DtorCallOf(f));
    }
  }

  lemma HasWrapperAppend(a: seq<Item>, b: seq<Item>)
    ensures HasCtorWrapper(a + b) <==> HasCtorWrapper(a) || HasCtorWrapper(b)
    ensures HasDtorWrapper(a + b) <==> HasDtorWrapper(a) || HasDtorWrapper(b)
  {
    if HasCtorWrapper(a) {
      var k :| 0 <= k < |a| && a[k].CtorWrapper?;
      assert (a + b)[k] == a[k];
    }
    if HasDtorWrapper(a) {
      var k :| 0 <= k < |a| && a[k].DtorWrapper?;
      assert (a + b)[k] == a[k];
    }
    if HasCtorWrapper(b) {
      var k :| 0 <= k < |b| && b[k].CtorWrapper?;
      assert (a + b)[|a| + k] == b[k];
    }
    if HasDtorWrapper(b) {
      var k :| 0 <= k < |b| && b[k].DtorWrapper?;
      assert (a + b)[|a| + k] == b[k];
    }
    if HasCtorWrapper(a + b) {
      var k :| 0 <= k < |a + b| && (a + b)[k].CtorWrapper?;
      if k >= |a| { assert b[k - |a|].CtorWrapper?; }
    }
    if HasDtorWrapper(a + b) {
      var k :| 0 <= k < |a + b| && (a + b)[k].DtorWrapper?;
      if k >= |a| { assert b[k - |a|].DtorWrapper?; }
    }
  }

  /** "#error INVALID VFID" is printed for a function exactly when it is a
      virtual (not the vector-deleting destructor) whose slot was not found. */
  lemma InvalidVirtualMarked(funcs: seq<FuncSym>, uname: string, nameFixed: string, redirectors: bool, n: string)
    ensures ErrorMarker(nameFixed, n) in MethodItems(funcs, uname, nameFixed, redirectors) <==>
              exists k :: 0 <= k < |funcs| && !IsVecDelDtor(funcs[k]) && funcs[k].isVirtual
                          && !funcs[k].lookup.found && funcs[k].name == n
  {
    ConcatMapMembers(funcs, Entry(uname, nameFixed, redirectors), ErrorMarker(nameFixed, n));
    forall k | 0 <= k < |funcs|
      ensures ErrorMarker(nameFixed, n) in EntryItems(funcs[k], uname, nameFixed, redirectors) <==>
                !IsVecDelDtor(funcs[k]) && funcs[k].isVirtual && !funcs[k].lookup.found && funcs[k].name == n
    {
      var f := funcs[k];
      FuncItemsMarker(f, TraitsOf(f, uname), nameFixed, redirectors);
      var r := FuncItems(f, TraitsOf(f, uname), nameFixed, redirectors);
      if ErrorMarker(nameFixed, n) in r {
        var j :| 0 <= j < |r| && r[j] == ErrorMarker(nameFixed, n);
      }
    }
  }

  /** A function that gets a constructor wrapper. */
  predicate CtorEntry(f: FuncSym, uname: string)
  {
    !IsVecDelDtor(f) && IsCtor(f, uname) && !IsOptimized(f)
  }

  /** A function that gets a destructor wrapper. */
  predicate DtorEntry(f: FuncSym)
  {
    !IsVecDelDtor(f) && IsDtor(f) && (!IsOptimized(f) || IsValidVirtual(f))
  }

  lemma EntryWrappers(f: FuncSym, uname: string, nameFixed: string, redirectors: bool)
    ensures HasCtorWrapper(Entry(uname, nameFixed, redirectors)(f)) <==> CtorEntry(f, uname)
    ensures HasDtorWrapper(Entry(uname, nameFixed, redirectors)(f)) <==> DtorEntry(f)
  {
    FuncItemsWrappers(f, TraitsOf(f, uname), nameFixed, redirectors);
    assert !HasCtorWrapper([]) && !HasDtorWrapper([]);
  }

  /** A constructor wrapper is printed exactly when some function is a
      constructor with an address; otherwise the trivial one stands in. */
  lemma MethodItemsCtor(funcs: seq<FuncSym>, uname: string, nameFixed: string, redirectors: bool)
    ensures HasCtorWrapper(MethodItems(funcs, uname, nameFixed, redirectors)) <==>
              exists k :: 0 <= k < |funcs| && CtorEntry(funcs[k], uname)
  {
    var g := Entry(uname, nameFixed, redirectors);
    var p := (it: Item) => it.CtorWrapper?;
    var q := (f: FuncSym) => CtorEntry(f, uname);
    forall f ensures AnySatisfies(g(f), p) <==> q(f) {
      EntryWrappers(f, uname, nameFixed, redirectors);
    }
    ConcatMapAny(funcs, g, p, q);
  }

  /** A destructor wrapper is printed exactly when some function is a
      destructor with an address or a found slot; otherwise the trivial
      one stands in. */
  lemma MethodItemsDtor(funcs: seq<FuncSym>, uname: string, nameFixed: string, redirectors: bool)
    ensures HasDtorWrapper(MethodItems(funcs, uname, nameFixed, redirectors)) <==>
              exists k :: 0 <= k < |funcs| && DtorEntry(funcs[k])
  {
    var g := Entry(uname, nameFixed, redirectors);
    var p := (it: Item) => it.DtorWrapper?;
    var q := (f: FuncSym) => DtorEntry(f);
    forall f ensures AnySatisfies(g(f), p) <==> q(f) {
      EntryWrappers(f, uname, nameFixed, redirectors);
    }
    ConcatMapAny(funcs, g, p, q);
  }

  /** The methods block holds the trivial constructor (destructor) exactly
      when no function earned a wrapper, and a wrapper otherwise. */
  lemma MethodsBlockWrappers(funcs: seq<FuncSym>, uname: string, nameFixed: string, redirectors: bool)
    ensures var mb := MethodsBlock(funcs, uname, nameFixed, redirectors);
            && (TrivialCtor in mb <==> !exists k :: 0 <= k < |funcs| && CtorEntry(funcs[k], uname))
            && (TrivialDtor in mb <==> !exists k :: 0 <= k < |funcs| && DtorEntry(funcs[k]))
            && (TrivialCtor in mb || exists r :: CtorWrapper(r) in mb)
            && (TrivialDtor in mb || exists c :: DtorWrapper(c) in mb)
  {
    var items := MethodItems(funcs, uname, nameFixed, redirectors);
    var mb := MethodsBlock(funcs, uname, nameFixed, redirectors);
    MethodItemsCtor(funcs, uname, nameFixed, redirectors);
    MethodItemsDtor(funcs, uname, nameFixed, redirectors);
    NoTrivialItems(funcs, uname, nameFixed, redirectors);
    assert mb == items + Fallbacks(items);
    if HasCtorWrapper(items) {
      var k :| 0 <= k < |items| && items[k].CtorWrapper?;
      assert mb[k] == CtorWrapper(items[k].rva);
    }
    if HasDtorWrapper(items) {
      var k :| 0 <= k < |items| && items[k].DtorWrapper?;
      assert mb[k] == DtorWrapper(items[k].call);
    }
  }

  /** The vector-deleting destructor leaves no trace: the methods list is
      the one of the remaining functions. */
  lemma VecDelDtorIgnored(funcs: seq<FuncSym>, uname: string, nameFixed: string, redirectors: bool)
    ensures MethodItems(funcs, uname, nameFixed, redirectors)
            == MethodItems(Filter(funcs, f => !IsVecDelDtor(f)), uname, nameFixed, redirectors)
  {
    ConcatMapFilter(funcs, Entry(uname, nameFixed, redirectors), f => !IsVecDelDtor(f));
  }
}
