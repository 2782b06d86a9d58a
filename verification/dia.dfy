/** The debug-symbol records the proxy generator reads.

    Every accessor the generator calls on a symbol (get_symTag, get_name,
    get_virtual, get_locationType, ...) is a read of one field here; the
    children a SymbolEnumerator would visit are sequences in enumeration
    order. */
module Dia {

  datatype Option<T> = None | Some(value: T)

  /** The symbol tags the generator tells apart; any other tag is SymTagOther. */
  datatype SymTag =
    | SymTagUDT
    | SymTagBaseClass
    | SymTagData
    | SymTagFunction
    | SymTagPointerType
    | SymTagArrayType
    | SymTagEnum
    | SymTagBaseType
    | SymTagOther(code: nat)

  /** The kind of a user-defined type; it selects the keyword of a declaration. */
  datatype UdtKind = UdtStruct | UdtClass | UdtUnion | UdtInterface

  /** What a data symbol is; only DataIsMember becomes a field. */
  datatype DataKind = DataIsMember | DataIsStaticMember | DataIsConstant | DataIsOther(code: nat)

  /** Location types (DIA's LocationType values the generator compares against). */
  const LocIsNull: nat := 0
  const LocIsStatic: nat := 1
  const LocIsThisRel: nat := 4

  /** The type of a data member: its tag, whether it is a reference, and,
      for an array, the tag of its element type. */
  datatype TypeSym = TypeSym(tag: SymTag, isReference: bool, elementTag: SymTag)

  /** A data child of a UDT; `offset` is None when get_offset does not succeed. */
  datatype DataSym = DataSym(
    name: string,
    dataKind: DataKind,
    locationType: nat,
    offset: Option<int>,
    fieldType: TypeSym)

  /** What the virtual-slot resolver reports for a function of a UDT:
      whether it found the slot, and the values it leaves in its two
      out-parameters, the offset of the vtable pointer in the object and
      the 0-based slot index in that table. The out-parameters hold
      whatever the resolver left in them, whether it succeeded or not. */
  datatype VLookup = VLookup(found: bool, vtpo: nat, vfid: nat)

  /** A function child of a UDT. `lookup` is what the virtual-slot
      resolver reports for this function of this UDT; it is consulted only
      for virtual functions. */
  datatype FuncSym = FuncSym(
    name: string,
    undecoratedName: string,
    isVirtual: bool,
    isIntro: bool,
    isPure: bool,
    isStatic: bool,
    locationType: nat,
    rva: nat,
    callConv: nat,
    lookup: VLookup)

  /** A UDT symbol. `symTag` and `name` are None when their accessor fails;
      `bases` are the names of its base-class children. */
  datatype UdtSym = UdtSym(
    symTag: Option<SymTag>,
    udtKind: UdtKind,
    name: Option<string>,
    bases: seq<string>,
    functions: seq<FuncSym>,
    data: seq<DataSym>,
    length: nat)
}
