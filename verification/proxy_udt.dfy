/** The proxy declaration of one user-defined type: the gate on the
    symbol's tag, kind and name, then header, base list, body with the
    injected vtable pointer, the fields, the method wrappers, the optional
    layout guard, and the closing of the type. */
module ProxyUdt {
  import opened Dia
  import opened Output
  import opened Seqs
  import opened UdtLayout
  import opened UdtMethods

  /** Only named structs and classes are printed; unions and interfaces,
      symbols that are not UDTs and symbols whose tag or name cannot be
      read produce nothing. */
  predicate Accepted(u: UdtSym)
  {
    u.symTag == Some(SymTagUDT) && (u.udtKind == UdtStruct || u.udtKind == UdtClass) && u.name.Some?
  }

  /** The stretches of a printed type, in order. */
  datatype Parts = Parts(header: Item, bases: seq<Item>, vtable: seq<Item>, fields: seq<Item>,
                         methods: seq<Item>, guard: seq<Item>)

  function Assemble(p: Parts): seq<Item>
  {
    [p.header] + p.bases + [BodyOpen] + p.vtable + p.fields + p.methods + p.guard + [BodyClose, Blank]
  }

  function PartsOf(u: UdtSym, uname: string, guardObject: bool, zeroInitialize: bool, redirectors: bool,
                   fixName: string -> string): Parts
  {
    var nameFixed := fixName(uname);
    Parts(Header(u.udtKind, nameFixed), BaseClauses(u.bases, fixName), VtablePart(u.functions),
          MemberFields(u.data, zeroInitialize), MethodsBlock(u.functions, uname, nameFixed, redirectors),
          if guardObject then GuardBlock(u.length, u.data) else [])
  }

  function UdtBlock(u: UdtSym, guardObject: bool, zeroInitialize: bool, redirectors: bool,
                    fixName: string -> string): seq<Item>
  {
    if !Accepted(u) then [] else Assemble(PartsOf(u, u.name.value, guardObject, zeroInitialize, redirectors, fixName))
  }

  predicate IsGuardItem(it: Item)
  {
    it.GuardBegin? || it.SizeAssert? || it.OffsetAssert? || it.GuardEnd?
  }

  /** Each stretch holds only items of its own kind. */
  predicate PartsShape(p: Parts)
  {
    && p.header.Header?
    && (forall x :: x in p.bases ==> x.BaseClause?)
    && (p.vtable == [] || p.vtable == [VtableField])
    && (forall x :: x in p.fields ==> x.Field?)
    && (forall x :: x in p.methods ==> IsMethodItem(x))
    && (forall x :: x in p.guard ==> IsGuardItem(x))
  }

  lemma PartsOfShape(u: UdtSym, uname: string, guardObject: bool, zeroInitialize: bool, redirectors: bool,
                     fixName: string -> string)
    ensures PartsShape(PartsOf(u, uname, guardObject, zeroInitialize, redirectors, fixName))
  {
    var p := PartsOf(u, uname, guardObject, zeroInitialize, redirectors, fixName);
    forall x | x in p.methods
      ensures IsMethodItem(x)
    {
      MethodsBlockKinds(u.functions, uname, fixName(uname), redirectors, x);
    }
    forall x | x in p.guard
      ensures IsGuardItem(x)
    {
      var oa := OffsetAsserts(u.data);
      assert p.guard == [] || p.guard == [GuardBegin, SizeAssert(Trunc32(u.length))] + oa + [GuardEnd];
    }
  }

  /** Where an item of each kind can occur in an assembled type. */
  lemma AssembleByKind(p: Parts, it: Item)
    requires PartsShape(p)
    ensures it.Field? ==> (it in Assemble(p) <==> it in p.fields)
    ensures IsMethodItem(it) ==> (it in Assemble(p) <==> it in p.methods)
    ensures IsGuardItem(it) ==> (it in Assemble(p) <==> it in p.guard)
    ensures it == VtableField ==> (it in Assemble(p) <==> it in p.vtable)
  {
    assert it in Assemble(p) <==>
      it == p.header || it in p.bases || it == BodyOpen || it in p.vtable || it in p.fields || it in p.methods
      || it in p.guard || it == BodyClose || it == Blank;
  }

  /** CppProxyPrintUDT. */
  method PrintUdt(u: UdtSym, guardObject: bool, zeroInitialize: bool, redirectors: bool,
                  fixName: string -> string)
    returns (out: seq<Item>)
    ensures out == UdtBlock(u, guardObject, zeroInitialize, redirectors, fixName)
  {
    out := [];
    if u.symTag.None? || u.symTag.value != SymTagUDT {
      return;
    }
    var kind := u.udtKind;
    if !(kind == UdtStruct || kind == UdtClass) {
      return;
    }
    if u.name.None? {
      return;
    }
    var uname := u.name.value;
    var nameFixed := fixName(uname);
    var bases := PrintBaseList(u.bases, fixName);
    var vtable := PrintVtablePointer(u.functions);
    var fields := PrintDataMembers(u.data, zeroInitialize);
    var methods := PrintMethods(u.functions, uname, nameFixed, redirectors);
    var guard := [];
    if guardObject {
      guard := PrintGuard(u.length, u.data);
    }
    out := [Header(kind, nameFixed)] + bases + [BodyOpen] + vtable + fields + methods + guard + [BodyClose, Blank];
    assert Parts(Header(kind, nameFixed), bases, vtable, fields, methods, guard)
           == PartsOf(u, uname, guardObject, zeroInitialize, redirectors, fixName);
  }

  /** Nothing is printed exactly for a rejected symbol; an accepted one
      starts with its header and ends with the closing of the type and an
      empty line. */
  lemma BlockFrame(u: UdtSym, guardObject: bool, zeroInitialize: bool, redirectors: bool, fixName: string -> string)
    ensures var out := UdtBlock(u, guardObject, zeroInitialize, redirectors, fixName);
            && (out == [] <==> !Accepted(u))
            && (Accepted(u) ==>
                  && |out| >= 4
                  && out[0] == Header(u.udtKind, fixName(u.name.value))
                  && out[|out| - 2] == BodyClose && out[|out| - 1] == Blank)
  {
    if Accepted(u) {
      var p := PartsOf(u, u.name.value, guardObject, zeroInitialize, redirectors, fixName);
      var front := [p.header] + p.bases + [BodyOpen] + p.vtable + p.fields + p.methods + p.guard;
      assert Assemble(p) == front + [BodyClose, Blank];
      assert front[0] == p.header;
    }
  }

  /** The items of the methods block, whatever the functions. */
  lemma MethodsBlockKinds(funcs: seq<FuncSym>, uname: string, nameFixed: string, redirectors: bool, it: Item)
    requires it in MethodsBlock(funcs, uname, nameFixed, redirectors)
    ensures IsMethodItem(it)
  {
    var items := MethodItems(funcs, uname, nameFixed, redirectors);
    if it in items {
      MethodItemsKinds(funcs, uname, nameFixed, redirectors, it);
    } else {
      assert it in Fallbacks(items);
    }
  }

  /** The body of a type declares its own vtable pointer exactly when the
      type is printed, introduces a virtual function and overrides none;
      never more than once. */
  lemma VtablePointerIff(u: UdtSym, guardObject: bool, zeroInitialize: bool, redirectors: bool,
                         fixName: string -> string)
    ensures var out := UdtBlock(u, guardObject, zeroInitialize, redirectors, fixName);
            && (VtableField in out <==>
                  Accepted(u)
                  && (exists k :: 0 <= k < |u.functions| && u.functions[k].isVirtual && u.functions[k].isIntro)
                  && (forall k :: 0 <= k < |u.functions| && u.functions[k].isVirtual ==> u.functions[k].isIntro))
            && multiset(out)[VtableField] <= 1
            && (forall i, j :: 0 <= i < |out| && 0 <= j < |out| && out[i] == VtableField && out[j].Field? ==> i < j)
  {
    if Accepted(u) {
      var p := PartsOf(u, u.name.value, guardObject, zeroInitialize, redirectors, fixName);
      PartsOfShape(u, u.name.value, guardObject, zeroInitialize, redirectors, fixName);
      AssembleByKind(p, VtableField);
      VtableOnce(p);
      VtableBeforeFields(p);
    }
  }

  /** The vtable pointer precedes every field. */
  lemma VtableBeforeFields(p: Parts)
    requires PartsShape(p)
    ensures var out := Assemble(p);
            forall i, j :: 0 <= i < |out| && 0 <= j < |out| && out[i] == VtableField && out[j].Field? ==> i < j
  {
    var out := Assemble(p);
    var pre := [p.header] + p.bases + [BodyOpen];
    var rest := p.methods + p.guard + [BodyClose, Blank];
    assert out == pre + p.vtable + p.fields + rest;
    var a := |pre| + |p.vtable|;
    assert VtableField !in p.methods && VtableField !in p.guard;
    assert VtableField !in rest && VtableField !in p.fields;
    assert forall i :: 0 <= i < |out| && out[i] == VtableField ==> i < a;
    forall k | 0 <= k < |pre|
      ensures !pre[k].Field?
    {
      if k == 0 {
        assert pre[k] == p.header;
      } else if k < |pre| - 1 {
        assert pre[k] == p.bases[k - 1] && p.bases[k - 1] in p.bases;
      } else {
        assert pre[k] == BodyOpen;
      }
    }
    assert forall j :: 0 <= j < |out| && out[j].Field? ==> j >= a;
  }

  lemma VtableOnce(p: Parts)
    requires PartsShape(p)
    ensures multiset(Assemble(p))[VtableField] <= 1
  {
    AroundVtable(p);
    MultisetMiddle([p.header] + p.bases + [BodyOpen], p.vtable,
                   p.fields + p.methods + p.guard + [BodyClose, Blank], VtableField);
  }

  /** The assembled type split around its vtable stretch, which holds the
      only vtable pointer. */
  lemma AroundVtable(p: Parts)
    requires PartsShape(p)
    ensures Assemble(p) == ([p.header] + p.bases + [BodyOpen]) + p.vtable
                           + (p.fields + p.methods + p.guard + [BodyClose, Blank])
    ensures VtableField !in [p.header] + p.bases + [BodyOpen]
    ensures VtableField !in p.fields + p.methods + p.guard + [BodyClose, Blank]
  {
  }

  /** Every member data symbol of a printed type becomes a field with the
      default initialiser its type calls for, and every field comes from a
      member data symbol. */
  lemma FieldsFromMembers(u: UdtSym, guardObject: bool, zeroInitialize: bool, redirectors: bool,
                          fixName: string -> string, it: Item)
    requires it.Field?
    ensures it in UdtBlock(u, guardObject, zeroInitialize, redirectors, fixName) <==>
              Accepted(u) && exists d :: d in u.data && IsMember(d) && it == FieldFor(d, zeroInitialize)
  {
    if Accepted(u) {
      var p := PartsOf(u, u.name.value, guardObject, zeroInitialize, redirectors, fixName);
      PartsOfShape(u, u.name.value, guardObject, zeroInitialize, redirectors, fixName);
      AssembleByKind(p, it);
      MemberFieldsMembers(u.data, zeroInitialize, it);
    }
  }

  /** The layout guard appears only when requested: then it checks the
      size (as a 32-bit value) and the offset of every member that has one
      and is not a reference, and nothing else. */
  lemma GuardOnlyWhenRequested(u: UdtSym, guardObject: bool, zeroInitialize: bool, redirectors: bool,
                               fixName: string -> string, it: Item)
    requires it.OffsetAssert?
    ensures var out := UdtBlock(u, guardObject, zeroInitialize, redirectors, fixName);
            && (GuardBegin in out <==> Accepted(u) && guardObject)
            && (SizeAssert(Trunc32(u.length)) in out <==> Accepted(u) && guardObject)
            && (it in out <==>
                  Accepted(u) && guardObject
                  && exists d :: d in u.data && HasOffsetGuard(d) && it == OffsetAssert(d.name, Trunc32(d.offset.value)))
  {
    if Accepted(u) {
      var p := PartsOf(u, u.name.value, guardObject, zeroInitialize, redirectors, fixName);
      PartsOfShape(u, u.name.value, guardObject, zeroInitialize, redirectors, fixName);
      AssembleByKind(p, GuardBegin);
      AssembleByKind(p, SizeAssert(Trunc32(u.length)));
      AssembleByKind(p, it);
      if guardObject {
        var oa := OffsetAsserts(u.data);
        assert p.guard == [GuardBegin, SizeAssert(Trunc32(u.length))] + oa + [GuardEnd];
        assert it in p.guard <==> it in oa;
        OffsetAssertsMembers(u.data, it);
      }
    }
  }

  /** A printed type always gets a constructor and a destructor: the
      wrapper of a real one, or the trivial one exactly when no function
      earned a wrapper. */
  lemma CtorAndDtorPresent(u: UdtSym, guardObject: bool, zeroInitialize: bool, redirectors: bool,
                           fixName: string -> string)
    requires Accepted(u)
    ensures var out := UdtBlock(u, guardObject, zeroInitialize, redirectors, fixName);
            && (TrivialCtor in out <==> !exists k :: 0 <= k < |u.functions| && CtorEntry(u.functions[k], u.name.value))
            && (TrivialDtor in out <==> !exists k :: 0 <= k < |u.functions| && DtorEntry(u.functions[k]))
            && (TrivialCtor in out || exists r :: CtorWrapper(r) in out)
            && (TrivialDtor in out || exists c :: DtorWrapper(c) in out)
  {
    var uname := u.name.value;
    var p := PartsOf(u, uname, guardObject, zeroInitialize, redirectors, fixName);
    PartsOfShape(u, uname, guardObject, zeroInitialize, redirectors, fixName);
    MethodsBlockWrappers(u.functions, uname, fixName(uname), redirectors);
    AssembleByKind(p, TrivialCtor);
    AssembleByKind(p, TrivialDtor);
    if TrivialCtor !in p.methods {
      var r :| CtorWrapper(r) in p.methods;
      AssembleByKind(p, CtorWrapper(r));
    }
    if TrivialDtor !in p.methods {
      var c :| DtorWrapper(c) in p.methods;
      AssembleByKind(p, DtorWrapper(c));
    }
  }

  /** "#error INVALID VFID" is printed in a printed type exactly for its
      virtual functions (other than the vector-deleting destructor) whose
      vtable slot was not found. */
  lemma ErrorMarkerIff(u: UdtSym, guardObject: bool, zeroInitialize: bool, redirectors: bool,
                       fixName: string -> string, n: string)
    requires Accepted(u)
    ensures ErrorMarker(fixName(u.name.value), n) in UdtBlock(u, guardObject, zeroInitialize, redirectors, fixName) <==>
              exists k :: 0 <= k < |u.functions| && !IsVecDelDtor(u.functions[k]) && u.functions[k].isVirtual
                          && !u.functions[k].lookup.found && u.functions[k].name == n
  {
    var uname := u.name.value;
    var nameFixed := fixName(uname);
    var p := PartsOf(u, uname, guardObject, zeroInitialize, redirectors, fixName);
    PartsOfShape(u, uname, guardObject, zeroInitialize, redirectors, fixName);
    AssembleByKind(p, ErrorMarker(nameFixed, n));
    var items := MethodItems(u.functions, uname, nameFixed, redirectors);
    assert p.methods == items + Fallbacks(items);
    assert ErrorMarker(nameFixed, n) !in Fallbacks(items);
    InvalidVirtualMarked(u.functions, uname, nameFixed, redirectors, n);
  }
}
