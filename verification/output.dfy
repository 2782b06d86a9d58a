/** The generator's output, one abstract item per emitted declaration or
    line; the exact C++ spelling of each item is not modelled. */
module Output {
  import opened Dia

  /** Which separator precedes a base class in the base list. */
  datatype BaseSep = Colon | Comma

  /** The default initialiser appended to a data member. */
  datatype Init =
    | NoInit          // nothing appended
    | LiteralZero     // " = 0"
    | EnumCast        // " = (T)(0)"
    | EmptyBraces     // " = {}"

  /** How a destructor wrapper finds the function it calls. */
  datatype DtorCall = ViaSlot(vfid: nat) | ViaRva(rva: nat)

  datatype Item =
    | FwdDecl(kind: UdtKind, name: string)          // "<kind> <name>;"
    | Blank                                         // an empty line
    | Header(kind: UdtKind, name: string)           // "<kind> <name>"
    | BaseClause(sep: BaseSep, name: string)        // " : public <name>" or ", public <name>"
    | BodyOpen                                      // " {" and "public:"
    | VtableField                                   // "void* _vtable;"
    | Field(name: string, fieldType: TypeSym, init: Init)
    | ErrorMarker(udt: string, func: string)        // "#error INVALID VFID <udt>::<func>"
    | CtorWrapper(rva: nat)                         // ctor(...) calling the constructor at rva
    | DtorWrapper(call: DtorCall)                   // dtor() calling through a slot or an rva
    | FuncWrapper(name: string, isStatic: bool, callConv: nat, rva: nat)
    | VirtualRedirector(name: string, vfid: nat)    // wrapper calling through vtable slot vfid
    | TrivialCtor                                   // "ctor() { return this; }"
    | TrivialDtor                                   // "dtor() {}"
    | GuardBegin                                    // "inline void _guard_obj() {"
    | SizeAssert(size: nat)                         // static_assert on sizeof
    | OffsetAssert(field: string, offset: nat)      // static_assert on offsetof
    | GuardEnd                                      // "};" closing the guard function
    | BodyClose                                     // "};" closing the type

  /** The value a C cast to a 32-bit `unsigned int` leaves of `x`. */
  function Trunc32(x: int): (r: nat)
    ensures r < 0x1_0000_0000
    ensures 0 <= x < 0x1_0000_0000 ==> r == x
    ensures (r - x) % 0x1_0000_0000 == 0
  {
    x % 0x1_0000_0000
  }
}
