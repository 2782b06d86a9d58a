/** The layout stages of a UDT proxy: the base list, the injected vtable
    pointer, the data members with their default initialisers, and the
    layout-guard block. */
module UdtLayout {
  import opened Dia
  import opened Output
  import opened Seqs

  // ---------------------------------------------------------------- base list

  /** The base list: the first base is introduced by " : ", every later one by ", ". */
  function BaseClauses(bases: seq<string>, fixName: string -> string): seq<Item>
  {
    seq(|bases|, k requires 0 <= k < |bases| => BaseClause(if k == 0 then Colon else Comma, fixName(bases[k])))
  }

  method PrintBaseList(bases: seq<string>, fixName: string -> string) returns (out: seq<Item>)
    ensures out == BaseClauses(bases, fixName)
    ensures |out| == |bases|
    ensures forall k :: 0 <= k < |out| ==>
              out[k].BaseClause? && (out[k].sep == Colon <==> k == 0) && out[k].name == fixName(bases[k])
  {
    out := [];
    var baseId := 0;
    while baseId < |bases|
      invariant 0 <= baseId <= |bases|
      invariant |out| == baseId
      invariant forall k :: 0 <= k < baseId ==>
                  out[k] == BaseClause(if k == 0 then Colon else Comma, fixName(bases[k]))
    {
      var sep := if baseId == 0 then Colon else Comma;
      out := out + [BaseClause(sep, fixName(bases[baseId]))];
      baseId := baseId + 1;
    }
  }

  // ---------------------------------------------------- injected vtable pointer

  predicate HasIntroducingVirtual(funcs: seq<FuncSym>)
  {
    exists k :: 0 <= k < |funcs| && funcs[k].isVirtual && funcs[k].isIntro
  }

  predicate HasOverridingVirtual(funcs: seq<FuncSym>)
  {
    exists k :: 0 <= k < |funcs| && funcs[k].isVirtual && !funcs[k].isIntro
  }

  /** The type declares its own vtable pointer when it introduces a virtual
      and overrides none (otherwise the pointer lives in a base). */
  function VtablePart(funcs: seq<FuncSym>): seq<Item>
  {
    if HasIntroducingVirtual(funcs) && !HasOverridingVirtual(funcs) then [VtableField] else []
  }

  method PrintVtablePointer(funcs: seq<FuncSym>) returns (out: seq<Item>)
    ensures out == VtablePart(funcs)
    ensures out == [VtableField] <==>
              (exists k :: 0 <= k < |funcs| && funcs[k].isVirtual && funcs[k].isIntro)
              && (forall k :: 0 <= k < |funcs| && funcs[k].isVirtual ==> funcs[k].isIntro)
    ensures out == [] || out == [VtableField]
  {
    var hasIntroVf := false;
    var hasOverVf := false;
    var i := 0;
    while i < |funcs|
      invariant 0 <= i <= |funcs|
      invariant hasIntroVf <==> HasIntroducingVirtual(funcs[..i])
      invariant hasOverVf <==> HasOverridingVirtual(funcs[..i])
    {
      var f := funcs[i];
      if f.isVirtual {
        if f.isIntro {
          hasIntroVf := true;
        } else {
          hasOverVf := true;
        }
      }
      assert funcs[..i + 1] == funcs[..i] + [f];
      i := i + 1;
    }
    assert funcs[..i] == funcs;
    out := [];
    if hasIntroVf && !hasOverVf {
      out := [VtableField];
    }
  }

  // ------------------------------------------------------------- data members

  predicate IsMember(d: DataSym)
  {
    d.dataKind == DataIsMember
  }

  /** The default initialiser of a member of type `t`. */
  function FieldInit(t: TypeSym, zeroInitialize: bool): (init: Init)
    ensures init != NoInit ==> zeroInitialize && !t.isReference
    ensures init == EnumCast <==> zeroInitialize && !t.isReference && t.tag == SymTagEnum
    ensures init == EmptyBraces <==>
              zeroInitialize && !t.isReference && t.tag == SymTagArrayType
              && (t.elementTag == SymTagBaseType || t.elementTag == SymTagPointerType)
    ensures init == LiteralZero <==>
              zeroInitialize && !t.isReference && (t.tag == SymTagBaseType || t.tag == SymTagPointerType)
  {
    if !zeroInitialize || t.isReference then NoInit
    else
      match t.tag
      case SymTagEnum => EnumCast
      case SymTagArrayType =>
        if t.elementTag == SymTagBaseType || t.elementTag == SymTagPointerType then EmptyBraces else NoInit
      case SymTagBaseType => LiteralZero
      case SymTagPointerType => LiteralZero
      case _ => NoInit
  }

  function FieldFor(d: DataSym, zeroInitialize: bool): Item
  {
    Field(d.name, d.fieldType, FieldInit(d.fieldType, zeroInitialize))
  }

  /** The member data symbols, in enumeration order. */
  function Members(data: seq<DataSym>): seq<DataSym>
  {
    Filter(data, IsMember)
  }

  /** Each member data symbol appears as often as it is enumerated, and
      nothing else does; they keep their enumeration order, at the
      positions `Kept` lists, which rise strictly and cover every member. */
  lemma MembersInOrder(data: seq<DataSym>)
    ensures var m := Members(data);
            && (forall d :: multiset(m)[d] == if IsMember(d) then multiset(data)[d] else 0)
            && (forall d :: d in m <==> d in data && IsMember(d))
            && var p := Kept(data, IsMember); |m| == |p| && forall i :: 0 <= i < |m| ==> m[i] == data[p[i]]
  {
    var m := Members(data);
    FilterAtKept(data, IsMember);
    forall d
      ensures multiset(m)[d] == if IsMember(d) then multiset(data)[d] else 0
    {
      FilterCount(data, IsMember, d);
    }
  }

  /** One field per member data symbol, in order. */
  function MemberFields(data: seq<DataSym>, zeroInitialize: bool): seq<Item>
  {
    var m := Members(data);
    seq(|m|, k requires 0 <= k < |m| => FieldFor(m[k], zeroInitialize))
  }

  /** The fields are exactly those of the member data symbols. */
  lemma MemberFieldsMembers(data: seq<DataSym>, zeroInitialize: bool, it: Item)
    ensures it in MemberFields(data, zeroInitialize) <==>
              exists d :: d in data && IsMember(d) && it == FieldFor(d, zeroInitialize)
  {
    var mf := MemberFields(data, zeroInitialize);
    var m := Members(data);
    if it in mf {
      var k :| 0 <= k < |mf| && mf[k] == it;
      MemberIn(data, m[k]);
    }
    if exists d :: d in data && IsMember(d) && it == FieldFor(d, zeroInitialize) {
      var d :| d in data && IsMember(d) && it == FieldFor(d, zeroInitialize);
      MemberIn(data, d);
      var k :| 0 <= k < |m| && m[k] == d;
      assert mf[k] == it;
    }
  }

  lemma MemberIn(data: seq<DataSym>, d: DataSym)
    ensures d in Members(data) <==> d in data && IsMember(d)
  {
    FilterCount(data, IsMember, d);
  }

  /** One field per member data symbol, in enumeration order: the i-th
      field is that of the member at the i-th kept position. */
  lemma MemberFieldsInOrder(data: seq<DataSym>, zeroInitialize: bool)
    ensures var p := Kept(data, IsMember); var mf := MemberFields(data, zeroInitialize);
            |mf| == |p| && forall i :: 0 <= i < |mf| ==> mf[i] == FieldFor(data[p[i]], zeroInitialize)
  {
    FilterAtKept(data, IsMember);
  }

  method PrintDataMembers(data: seq<DataSym>, zeroInitialize: bool) returns (out: seq<Item>)
    ensures out == MemberFields(data, zeroInitialize)
  {
    out := [];
    var i := 0;
    while i < |data|
      invariant 0 <= i <= |data|
      invariant out == MemberFields(data[..i], zeroInitialize)
    {
      var d := data[i];
      assert data[..i + 1][..i] == data[..i];
      if d.dataKind == DataIsMember {
        var t := d.fieldType;
        var init := NoInit;
        if zeroInitialize
           && (t.tag == SymTagBaseType || t.tag == SymTagPointerType || t.tag == SymTagEnum || t.tag == SymTagArrayType) {
          if !t.isReference {
            if t.tag == SymTagEnum {
              init := EnumCast;
            } else if t.tag == SymTagArrayType {
              if t.elementTag == SymTagBaseType || t.elementTag == SymTagPointerType {
                init := EmptyBraces;
              }
            } else {
              init := LiteralZero;
            }
          }
        }
        out := out + [Field(d.name, t, init)];
      }
      i := i + 1;
    }
    assert data[..i] == data;
  }

  // -------------------------------------------------------------- layout guard

  /** The members whose offset the guard checks. */
  predicate HasOffsetGuard(d: DataSym)
  {
    IsMember(d) && d.locationType == LocIsThisRel && d.offset.Some? && !d.fieldType.isReference
  }

  /** One offset assertion per guarded member, in enumeration order, with
      the offset cast to 32 bits. */
  function OffsetAsserts(data: seq<DataSym>): (r: seq<Item>)
    ensures forall k :: 0 <= k < |r| ==> r[k].OffsetAssert?
  {
    var g := Filter(data, HasOffsetGuard);
    seq(|g|, k requires 0 <= k < |g| => OffsetAssert(g[k].name, Trunc32(g[k].offset.value)))
  }

  /** The offset assertions are exactly those of the guarded members. */
  lemma OffsetAssertsMembers(data: seq<DataSym>, it: Item)
    ensures it in OffsetAsserts(data) <==>
              exists d :: d in data && HasOffsetGuard(d) && it == OffsetAssert(d.name, Trunc32(d.offset.value))
  {
    var r := OffsetAsserts(data);
    var g := Filter(data, HasOffsetGuard);
    if it in r {
      var k :| 0 <= k < |r| && r[k] == it;
      FilterCount(data, HasOffsetGuard, g[k]);
      assert g[k] in g;
    }
    if exists d :: d in data && HasOffsetGuard(d) && it == OffsetAssert(d.name, Trunc32(d.offset.value)) {
      var d :| d in data && HasOffsetGuard(d) && it == OffsetAssert(d.name, Trunc32(d.offset.value));
      FilterCount(data, HasOffsetGuard, d);
      var k :| 0 <= k < |g| && g[k] == d;
      assert r[k] == it;
    }
  }

  function GuardBlock(length: nat, data: seq<DataSym>): seq<Item>
  {
    [GuardBegin, SizeAssert(Trunc32(length))] + OffsetAsserts(data) + [GuardEnd]
  }

  method PrintGuard(length: nat, data: seq<DataSym>) returns (out: seq<Item>)
    ensures out == GuardBlock(length, data)
  {
    out := [GuardBegin, SizeAssert(Trunc32(length))];
    var i := 0;
    while i < |data|
      invariant 0 <= i <= |data|
      invariant out == [GuardBegin, SizeAssert(Trunc32(length))] + OffsetAsserts(data[..i])
    {
      var d := data[i];
      assert data[..i + 1][..i] == data[..i];
      if d.dataKind == DataIsMember {
        if d.locationType == LocIsThisRel {
          if d.offset.Some? {
            if !d.fieldType.isReference {
              out := out + [OffsetAssert(d.name, Trunc32(d.offset.value))];
            }
          }
        }
      }
      i := i + 1;
    }
    assert data[..i] == data;
    out := out + [GuardEnd];
  }
}
