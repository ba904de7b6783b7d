/**
 * The C interface to the store (cosmosis/datablock/c_datablock.cc).
 *
 * A C pointer argument is modelled by a nullable reference: the handle is a
 * `DataBlock?`, an output location is a `Cell<T>?`, a caller's buffer is an
 * `array?<T>`; a `const char*` argument is an `Option<CText>`: the characters
 * before its terminating NUL, so none of them is NUL. Strings that come out
 * of the store are C++ strings and may hold NUL; `CString` is what a C reader
 * sees of them. Every entry point checks its pointer
 * arguments in a fixed order (Guard), then calls the store and turns what it
 * reports into a status code. Buffers and strings handed to the caller are
 * freshly allocated (`fresh`), which is the ownership transfer of the C code.
 */
module CDatablock {
  import opened Wrappers
  import opened Store

  /** A caller-owned output location: the target of a non-NULL `T*` argument. */
  class Cell<T> {
    var value: T

    constructor(v: T)
      ensures value == v
    {
      value := v;
    }
  }

  // ---------------------------------------------------------------------------
  // Decisions shared by the entry points
  // ---------------------------------------------------------------------------

  /** The argument checks, in the order every entry point makes them; an entry point that has no value or size pointer passes true for it. */
  function Guard(handle: bool, section: bool, name: bool, value: bool, size: bool): (st: Status)
    ensures st == Success <==> handle && section && name && value && size
    ensures st == DatablockNull <==> !handle
    ensures st == SectionNull <==> handle && !section
    ensures st == NameNull <==> handle && section && !name
    ensures st == ValueNull <==> handle && section && name && !value
    ensures st == SizeNull <==> handle && section && name && value && !size
  {
    if !handle then DatablockNull
    else if !section then SectionNull
    else if !name then NameNull
    else if !value then ValueNull
    else if !size then SizeNull
    else Success
  }

  /** The text of a NUL-terminated `const char*` argument: it holds no NUL. */
  type CText = t: string | '\0' !in t witness ""

  /** The characters a `c_str()` pointer shows a C reader: everything before the first NUL. */
  function CString(t: string): (r: string)
    ensures |r| <= |t| && r == t[..|r|]
    ensures '\0' !in r
    ensures |r| < |t| ==> t[|r|] == '\0'
  {
    if t == [] || t[0] == '\0' then [] else [t[0]] + CString(t[1..])
  }

  /** A string without NUL characters crosses the boundary unchanged. */
  lemma {:induction false} CStringIdentity(t: string)
    requires '\0' !in t
    ensures CString(t) == t
  {
    if t != [] {
      assert '\0' !in t[1..];
      CStringIdentity(t[1..]);
    }
  }

  /** C's conversion of a status code to `_Bool`: every nonzero code is true, and DBS_SUCCESS is 0. */
  function StatusAsBool(st: Status): bool
  {
    st != Success
  }

  /** The store behind a handle; None for a NULL handle. */
  function StoreOf(s: DataBlock?): Option<Sections>
    reads s
  {
    if s == null then None else Some(s.sections)
  }

  /** What a get entry point reports: the checks, then get_val (scalar and string gets). */
  function EntryGet(store: Option<Sections>, section: Option<CText>, name: Option<CText>, valOk: bool, tag: TypeTag): (r: Result<Value, Status>)
    ensures r.Ok? ==> store.Some? && section.Some? && name.Some? && valOk
    ensures r.Ok? ==> EntryAt(store.value, section.value, name.value) == Some(r.value) && r.value.Tag() == tag
  {
    var g := Guard(store.Some?, section.Some?, name.Some?, valOk, true);
    if g != Success then Err(g) else Get(store.value, section.value, name.value, tag)
  }

  /** What a get-with-default entry point reports: the checks, then get_val with the default. */
  function EntryGetDefault(store: Option<Sections>, section: Option<CText>, name: Option<CText>, valOk: bool, def: Value): (r: Result<Value, Status>)
    ensures r.Ok? ==> store.Some? && section.Some? && name.Some? && valOk && r.value.Tag() == def.Tag()
    ensures r.Ok? ==> r.value == def || EntryAt(store.value, section.value, name.value) == Some(r.value)
    ensures store.Some? && section.Some? && name.Some? && valOk && EntryAt(store.value, section.value, name.value).None? ==> r == Ok(def)
    ensures r.Err? && store.Some? && section.Some? && name.Some? && valOk ==> r.error == WrongValueType
  {
    var g := Guard(store.Some?, section.Some?, name.Some?, valOk, true);
    if g != Success then Err(g) else GetDefault(store.value, section.value, name.value, def)
  }

  /** What an array get reports before it allocates: the checks, then view<vector<T>> with its exceptions caught. */
  function EntryView(store: Option<Sections>, section: Option<CText>, name: Option<CText>, valOk: bool, szOk: bool, tag: TypeTag): (r: Result<Value, Status>)
    ensures r.Ok? ==> store.Some? && section.Some? && name.Some? && valOk && szOk
    ensures r.Ok? ==> EntryAt(store.value, section.value, name.value) == Some(r.value) && r.value.Tag() == tag
    ensures r.Err? ==> r.error != Success
  {
    var g := Guard(store.Some?, section.Some?, name.Some?, valOk, szOk);
    if g != Success then Err(g)
    else match View(store.value, section.value, name.value, tag)
      case Ok(v) => Ok(v)
      case Err(f) => Err(CatchStatus(f))
  }

  /** A put or replace on a non-NULL handle: the checks, the negative-size check of the array variants, then the store's write. */
  function EntryWrite(store: Sections, section: Option<CText>, name: Option<CText>, value: Option<Value>, sizeNegative: bool, replace: bool): (r: Step)
    ensures r.status == Success ==> section.Some? && name.Some? && value.Some? && !sizeNegative
    ensures r.status == Success ==> EntryAt(r.store, section.value, name.value) == value
  {
    var g := Guard(true, section.Some?, name.Some?, value.Some?, true);
    if g != Success then Step(g, store)
    else if sizeNegative then Step(SizeNegative, store)
    else if replace then Replace(store, section.value, name.value, value.value)
    else Put(store, section.value, name.value, value.value)
  }

  /** Every failing write, whether stopped by a check or refused by the store, leaves the store as it was. */
  lemma FailedWriteUnchanged(store: Sections, section: Option<CText>, name: Option<CText>, value: Option<Value>, sizeNegative: bool, replace: bool)
    ensures var r := EntryWrite(store, section, name, value, sizeNegative, replace);
      r.status != Success ==> r.store == store
  {
  }

  /** An array put or replace with a negative size fails with SizeNegative once the pointers pass their checks, before the store is consulted. */
  lemma NegativeSizeFirst(store: Sections, section: CText, name: CText, value: Value, replace: bool)
    ensures EntryWrite(store, Some(section), Some(name), Some(value), true, replace) == Step(SizeNegative, store)
  {
  }

  /** The status map of the array gets: a missing section, a missing name and a wrong type each have their own code; success hands back the stored vector. */
  lemma ArrayGetStatuses(store: Sections, section: CText, name: CText, tag: TypeTag)
    ensures var r := EntryView(Some(store), Some(section), Some(name), true, true, tag);
      && (section !in store ==> r == Err(SectionNotFound))
      && (section in store && name !in store[section] ==> r == Err(NameNotFound))
      && (section in store && name in store[section] && store[section][name].Tag() != tag ==> r == Err(WrongValueType))
      && (r.Ok? ==> r.value == store[section][name] && r.value.Tag() == tag)
      && (r.Ok? || r.error != LogicError)
  {
  }

  /** A put through the C interface followed by a get of the same type returns the value put, for every non-array type. */
  lemma {:induction false} PutGetRoundTrip(store: Sections, section: CText, name: CText, v: Value)
    requires v.Tag() !in {IntArrayType, DoubleArrayType}
    requires !(section in store && name in store[section])
    ensures var r := EntryWrite(store, Some(section), Some(name), Some(v), false, false);
      r.status == Success && EntryGet(Some(r.store), Some(section), Some(name), true, v.Tag()) == Ok(v)
  {
    PutThenGet(store, section, name, v);
  }

  // ---------------------------------------------------------------------------
  // Queries
  // ---------------------------------------------------------------------------

  /** c_datablock_has_section: false for a NULL argument, otherwise whether the section exists. */
  function HasSection(s: DataBlock?, name: Option<CText>): (r: bool)
    reads s
    ensures r <==> s != null && name.Some? && name.value in s.sections
  {
    if s == null || name.None? then false else s.HasSection(name.value)
  }

  /** c_datablock_num_sections: -1 for a NULL handle. */
  function NumSections(s: DataBlock?): (r: int)
    reads s
    ensures s == null <==> r == -1
    ensures s != null ==> r == |s.sections|
  {
    if s == null then -1 else s.NumSections()
  }

  /**
   * c_datablock_num_values: -1 for a NULL argument. DataBlock::num_values is
   * not part of this model; it is taken to answer -1 for an absent section.
   */
  function NumValues(s: DataBlock?, section: Option<CText>): (r: int)
    reads s
    ensures r == -1 <==> s == null || section.None? || section.value !in s.sections
    ensures r >= 0 ==> r == |s.sections[section.value]|
  {
    if s == null || section.None? || section.value !in s.sections then -1
    else |s.sections[section.value]|
  }

  /** c_datablock_has_value as written: the status from has_val returned as a `_Bool`. */
  function HasValueAsWritten(s: DataBlock?, section: Option<CText>, name: Option<CText>): (r: bool)
    reads s
    ensures s == null || section.None? || name.None? ==> !r
  {
    if s == null || section.None? || name.None? then false
    else StatusAsBool(s.HasVal(section.value, name.value))
  }

  /** The question c_datablock_has_value means to answer: does the value exist? */
  function HasValue(s: DataBlock?, section: Option<CText>, name: Option<CText>): (r: bool)
    reads s
    ensures r <==> s != null && section.Some? && name.Some?
                   && section.value in s.sections && name.value in s.sections[section.value]
  {
    if s == null || section.None? || name.None? then false
    else s.HasVal(section.value, name.value) == Success
  }

  /** As written, c_datablock_has_value answers the opposite of the question for every non-NULL argument: false for a stored value, true for a missing one. */
  lemma HasValueInverted(s: DataBlock, section: CText, name: CText)
    ensures HasValueAsWritten(s, Some(section), Some(name)) == !HasValue(s, Some(section), Some(name))
  {
  }

  /** c_datablock_get_array_length: -1 for a NULL argument, otherwise get_size. */
  function GetArrayLength(s: DataBlock?, section: Option<CText>, name: Option<CText>): (r: int)
    reads s
    ensures s == null || section.None? || name.None? ==> r == -1
    ensures s != null && section.Some? && name.Some? ==> r == s.GetSize(section.value, name.value)
    ensures r >= 0 ==> s.sections[section.value][name.value].Size() == r
  {
    if s == null || section.None? || name.None? then -1
    else s.GetSize(section.value, name.value)
  }

  /**
   * c_datablock_get_section_name: NULL for a negative index, whatever the
   * handle; otherwise NULL for a too large index, and else the characters a
   * C reader sees of the index-th section name in sorted order. For a
   * non-negative index the source dereferences the handle unchecked, so the
   * handle must then be non-NULL.
   */
  method GetSectionName(s: DataBlock?, i: int) returns (r: Option<string>)
    requires i >= 0 ==> s != null
    ensures i < 0 ==> r.None?
    ensures i >= 0 ==> (r.None? <==> i >= |s.sections|)
    ensures r.Some? ==> 0 <= i < |s.sections| && r.value == CString(SortedKeys(s.sections.Keys)[i])
  {
    if i < 0 {
      return None;
    }
    if i >= s.NumSections() {
      return None;
    }
    var name := s.SectionName(i);
    return Some(CString(name.value));
  }

  /** destroy_c_datablock: DatablockNull for a NULL handle; otherwise clear the store and release it. */
  method Destroy(s: DataBlock?) returns (st: Status)
    modifies s
    ensures s == null ==> st == DatablockNull
    ensures s != null ==> st == Success && s.sections == map[]
  {
    if s == null {
      return DatablockNull;
    }
    s.Clear();
    return Success;
  }

  /** c_datablock_get_type: the checks, then get_type; the type is written only on success. The source does not check `t`. */
  method GetType(s: DataBlock?, section: Option<CText>, name: Option<CText>, t: Cell<TypeTag>) returns (st: Status)
    modifies t
    ensures var g := Guard(s != null, section.Some?, name.Some?, true, true);
      g != Success ==> st == g && t.value == old(t.value)
    ensures Guard(s != null, section.Some?, name.Some?, true, true) == Success ==>
      var r := s.GetType(section.value, name.value);
      (r.Ok? ==> st == Success && t.value == r.value) && (r.Err? ==> st == r.error && t.value == old(t.value))
  {
    var g := Guard(s != null, section.Some?, name.Some?, true, true);
    if g != Success {
      return g;
    }
    var r := s.GetType(section.value, name.value);
    if r.Err? {
      return r.error;
    }
    t.value := r.value;
    return Success;
  }

  // ---------------------------------------------------------------------------
  // Scalar and string gets
  // ---------------------------------------------------------------------------

  predicate IsScalar(tag: TypeTag)
  {
    tag in {IntType, BoolType, DoubleType, ComplexType}
  }

  /**
   * c_datablock_get_int, _get_bool, _get_double and _get_complex: the checks,
   * then get_val; `*val` is written only when the status is DBS_SUCCESS.
   */
  method GetScalar(s: DataBlock?, section: Option<CText>, name: Option<CText>, tag: TypeTag, val: Cell?<Value>) returns (st: Status)
    requires IsScalar(tag)
    modifies val
    ensures var r := EntryGet(StoreOf(s), section, name, val != null, tag);
      && (r.Ok? ==> st == Success && val.value == r.value && r.value.Tag() == tag)
      && (r.Err? ==> st == r.error && (val != null ==> val.value == old(val.value)))
  {
    var g := Guard(s != null, section.Some?, name.Some?, val != null, true);
    if g != Success {
      return g;
    }
    var r := Get(s.sections, section.value, name.value, tag);
    if r.Err? {
      return r.error;
    }
    val.value := r.value;
    return Success;
  }

  /**
   * c_datablock_get_int_default and its bool, double and complex siblings:
   * the checks, then get_val with the default.
   */
  method GetScalarDefault(s: DataBlock?, section: Option<CText>, name: Option<CText>, def: Value, val: Cell?<Value>) returns (st: Status)
    requires IsScalar(def.Tag())
    modifies val
    ensures var r := EntryGetDefault(StoreOf(s), section, name, val != null, def);
      && (r.Ok? ==> st == Success && val.value == r.value && r.value.Tag() == def.Tag())
      && (r.Err? ==> st == r.error && (val != null ==> val.value == old(val.value)))
  {
    var g := Guard(s != null, section.Some?, name.Some?, val != null, true);
    if g != Success {
      return g;
    }
    var r := GetDefault(s.sections, section.value, name.value, def);
    if r.Err? {
      return r.error;
    }
    val.value := r.value;
    return Success;
  }

  /** strdup: a fresh buffer holding the C string's characters, or NULL when allocation fails. */
  method StrDup(t: string, allocFails: bool) returns (p: array?<char>)
    ensures allocFails ==> p == null
    ensures !allocFails ==> p != null && fresh(p) && p[..] == CString(t)
  {
    if allocFails {
      return null;
    }
    var c := CString(t);
    p := new char[|c|];
    CopyInto(c, p);
  }

  /**
   * c_datablock_get_string: a failed get returns its status and allocates
   * nothing; on success the caller owns a fresh copy of the stored string
   * (DBS_MEMORY_ALLOC_FAILURE if that copy cannot be made).
   */
  method GetString(s: DataBlock?, section: Option<CText>, name: Option<CText>, val: Cell?<array?<char>>, allocFails: bool) returns (st: Status)
    modifies val
    ensures var r := EntryGet(StoreOf(s), section, name, val != null, StringType);
      && (r.Err? ==> st == r.error && (val != null ==> val.value == old(val.value)))
      && (r.Ok? && allocFails ==> st == MemoryAllocFailure && val.value == null)
      && (r.Ok? && !allocFails ==>
            st == Success && val.value != null && fresh(val.value) && val.value[..] == CString(r.value.s))
  {
    var g := Guard(s != null, section.Some?, name.Some?, val != null, true);
    if g != Success {
      return g;
    }
    var r := Get(s.sections, section.value, name.value, StringType);
    if r.Err? {
      return r.error;
    }
    val.value := StrDup(r.value.s, allocFails);
    if val.value == null {
      return MemoryAllocFailure;
    }
    return Success;
  }

  /**
   * c_datablock_get_string_default: a NULL default is reported as
   * DBS_VALUE_NULL before the output pointer is checked.
   */
  method GetStringDefault(s: DataBlock?, section: Option<CText>, name: Option<CText>, def: Option<CText>, val: Cell?<array?<char>>, allocFails: bool) returns (st: Status)
    modifies val
    ensures var r := EntryGetDefault(StoreOf(s), section, name, def.Some? && val != null, Str(CString(if def.Some? then def.value else "")));
      && (r.Err? ==> st == r.error && (val != null ==> val.value == old(val.value)))
      && (r.Ok? && allocFails ==> st == MemoryAllocFailure && val.value == null)
      && (r.Ok? && !allocFails ==>
            st == Success && val.value != null && fresh(val.value) && val.value[..] == CString(r.value.s))
  {
    var g := Guard(s != null, section.Some?, name.Some?, def.Some? && val != null, true);
    if g != Success {
      return g;
    }
    var r := GetDefault(s.sections, section.value, name.value, Str(CString(def.value)));
    if r.Err? {
      return r.error;
    }
    val.value := StrDup(r.value.s, allocFails);
    if val.value == null {
      return MemoryAllocFailure;
    }
    return Success;
  }

  // ---------------------------------------------------------------------------
  // Array gets
  // ---------------------------------------------------------------------------

  /** std::copy of a vector into a buffer: the first |src| elements become src, the rest are untouched. */
  method CopyInto<T>(src: seq<T>, dst: array<T>)
    requires |src| <= dst.Length
    modifies dst
    ensures dst[..|src|] == src
    ensures dst[|src|..] == old(dst[|src|..])
  {
    var k := 0;
    while k < |src|
      invariant 0 <= k <= |src|
      invariant dst[..k] == src[..k]
      invariant dst[|src|..] == old(dst[|src|..])
    {
      dst[k] := src[k];
      k := k + 1;
    }
  }

  /**
   * c_datablock_get_int_array_1d: the checks (the size pointer last), then
   * view with its exceptions mapped to status codes; on success the caller
   * owns a fresh buffer equal to the stored vector and `*sz` is its length.
   */
  method GetIntArray(s: DataBlock?, section: Option<CText>, name: Option<CText>, val: Cell?<array?<Int32>>, sz: Cell?<int>, allocFails: bool) returns (st: Status)
    modifies val, sz
    ensures var r := EntryView(StoreOf(s), section, name, val != null, sz != null, IntArrayType);
      && (r.Err? ==> st == r.error && (val != null ==> val.value == old(val.value)) && (sz != null ==> sz.value == old(sz.value)))
      && (r.Ok? && allocFails ==> st == MemoryAllocFailure && val.value == null && sz.value == old(sz.value))
      && (r.Ok? && !allocFails ==>
            st == Success && val.value != null && fresh(val.value) && val.value[..] == r.value.ints
            && sz.value == |r.value.ints|)
  {
    var g := Guard(s != null, section.Some?, name.Some?, val != null, sz != null);
    if g != Success {
      return g;
    }
    var r := View(s.sections, section.value, name.value, IntArrayType);
    if r.Err? {
      return CatchStatus(r.error);
    }
    var data := r.value.ints;
    if allocFails {
      val.value := null;
      return MemoryAllocFailure;
    }
    var buf := new Int32[|data|];
    CopyInto(data, buf);
    val.value := buf;
    sz.value := |data|;
    return Success;
  }

  /** c_datablock_get_double_array_1d: as GetIntArray, for vectors of doubles. */
  method GetDoubleArray(s: DataBlock?, section: Option<CText>, name: Option<CText>, val: Cell?<array?<Float64>>, sz: Cell?<int>, allocFails: bool) returns (st: Status)
    modifies val, sz
    ensures var r := EntryView(StoreOf(s), section, name, val != null, sz != null, DoubleArrayType);
      && (r.Err? ==> st == r.error && (val != null ==> val.value == old(val.value)) && (sz != null ==> sz.value == old(sz.value)))
      && (r.Ok? && allocFails ==> st == MemoryAllocFailure && val.value == null && sz.value == old(sz.value))
      && (r.Ok? && !allocFails ==>
            st == Success && val.value != null && fresh(val.value) && val.value[..] == r.value.doubles
            && sz.value == |r.value.doubles|)
  {
    var g := Guard(s != null, section.Some?, name.Some?, val != null, sz != null);
    if g != Success {
      return g;
    }
    var r := View(s.sections, section.value, name.value, DoubleArrayType);
    if r.Err? {
      return CatchStatus(r.error);
    }
    var data := r.value.doubles;
    if allocFails {
      val.value := null;
      return MemoryAllocFailure;
    }
    var buf := new Float64[|data|];
    CopyInto(data, buf);
    val.value := buf;
    sz.value := |data|;
    return Success;
  }

  // ---------------------------------------------------------------------------
  // Preallocated array gets
  // ---------------------------------------------------------------------------

  /** One more than the largest `size_t` (64-bit). */
  const SizeLimit := 0x1_0000_0000_0000_0000

  /** `static_cast<size_t>(n)`: the value modulo 2^64, so a negative `int` becomes a huge size. */
  function SizeCast(n: Int32): (r: nat)
    ensures r < SizeLimit && r % SizeLimit == n as int % SizeLimit
    ensures n >= 0 ==> r == n as int
    ensures n < 0 ==> r >= SizeLimit - 0x8000_0000
  {
    if n >= 0 then n as int else SizeLimit + n as int
  }

  /** How a call leaves a C++ function: with a status code, or by an exception. */
  datatype Exit = Returned(status: Status) | Escaped(fault: Fault)

  /**
   * c_datablock_get_*_array_1d_preallocated as written, once the pointer
   * checks pass: view is called with no try block, so its exception leaves
   * the extern "C" function.
   */
  function PreallocatedExitAsWritten(store: Sections, section: string, name: string, tag: TypeTag, maxsize: Int32): (e: Exit)
    ensures section !in store ==> e == Escaped(BadDataBlockAccess)
  {
    match View(store, section, name, tag)
    case Err(f) => Escaped(f)
    case Ok(v) => if v.Size() > SizeCast(maxsize) then Returned(SizeInsufficient) else Returned(Success)
  }

  /** The same call with view's exceptions mapped as in the other array gets. */
  function PreallocatedStatus(store: Sections, section: string, name: string, tag: TypeTag, maxsize: Int32): (st: Status)
    ensures st == Success <==> View(store, section, name, tag).Ok? && View(store, section, name, tag).value.Size() <= SizeCast(maxsize)
  {
    match View(store, section, name, tag)
    case Err(f) => CatchStatus(f)
    case Ok(v) => if v.Size() > SizeCast(maxsize) then SizeInsufficient else Success
  }

  /** The correction changes only the calls that would throw, and reports for them what the allocating array get reports. */
  lemma PreallocatedCorrection(store: Sections, section: CText, name: CText, tag: TypeTag, maxsize: Int32)
    ensures match PreallocatedExitAsWritten(store, section, name, tag, maxsize)
      case Returned(st) => PreallocatedStatus(store, section, name, tag, maxsize) == st
      case Escaped(f) =>
        PreallocatedStatus(store, section, name, tag, maxsize) == CatchStatus(f)
        && EntryView(Some(store), Some(section), Some(name), true, true, tag) == Err(CatchStatus(f))
  {
  }

  /**
   * A negative maxsize switches the size check off: cast to size_t it
   * exceeds any vector an `int` can count, so the whole vector is copied.
   */
  lemma NegativeMaxsizeUnchecked(store: Sections, section: string, name: string, tag: TypeTag, maxsize: Int32)
    requires maxsize < 0
    requires View(store, section, name, tag).Ok? && View(store, section, name, tag).value.Size() < 0x8000_0000
    ensures PreallocatedStatus(store, section, name, tag, maxsize) == Success
  {
  }

  /**
   * c_datablock_get_int_array_1d_preallocated, with view's exceptions
   * mapped to status codes: `*sz` receives the true length whenever the
   * vector is found; a vector longer than `maxsize` gives
   * DBS_SIZE_INSUFFICIENT and copies nothing; otherwise exactly `length`
   * elements are copied and the rest of the buffer is left as it was.
   */
  method GetIntArrayPreallocated(s: DataBlock?, section: Option<CText>, name: Option<CText>, val: array?<Int32>, sz: Cell?<int>, maxsize: Int32) returns (st: Status)
    requires s != null && section.Some? && name.Some? && val != null && sz != null ==>
      var r := View(s.sections, section.value, name.value, IntArrayType);
      r.Ok? && |r.value.ints| <= SizeCast(maxsize) ==> |r.value.ints| <= val.Length
    modifies val, sz
    ensures var g := Guard(s != null, section.Some?, name.Some?, val != null, sz != null);
      g != Success ==> st == g && (val != null ==> val[..] == old(val[..])) && (sz != null ==> sz.value == old(sz.value))
    ensures Guard(s != null, section.Some?, name.Some?, val != null, sz != null) == Success ==>
      var r := View(s.sections, section.value, name.value, IntArrayType);
      && st == PreallocatedStatus(s.sections, section.value, name.value, IntArrayType, maxsize)
      && (r.Err? ==> sz.value == old(sz.value) && val[..] == old(val[..]))
      && (r.Ok? ==> sz.value == |r.value.ints|)
      && (r.Ok? && |r.value.ints| > SizeCast(maxsize) ==> val[..] == old(val[..]))
      && (r.Ok? && |r.value.ints| <= SizeCast(maxsize) ==>
            val[..|r.value.ints|] == r.value.ints && val[|r.value.ints|..] == old(val[|r.value.ints|..]))
  {
    var g := Guard(s != null, section.Some?, name.Some?, val != null, sz != null);
    if g != Success {
      return g;
    }
    var r := View(s.sections, section.value, name.value, IntArrayType);
    if r.Err? {
      return CatchStatus(r.error);
    }
    var data := r.value.ints;
    sz.value := |data|;
    if |data| > SizeCast(maxsize) {
      return SizeInsufficient;
    }
    CopyInto(data, val);
    return Success;
  }

  /** c_datablock_get_double_array_1d_preallocated: as GetIntArrayPreallocated, for vectors of doubles. */
  method GetDoubleArrayPreallocated(s: DataBlock?, section: Option<CText>, name: Option<CText>, val: array?<Float64>, sz: Cell?<int>, maxsize: Int32) returns (st: Status)
    requires s != null && section.Some? && name.Some? && val != null && sz != null ==>
      var r := View(s.sections, section.value, name.value, DoubleArrayType);
      r.Ok? && |r.value.doubles| <= SizeCast(maxsize) ==> |r.value.doubles| <= val.Length
    modifies val, sz
    ensures var g := Guard(s != null, section.Some?, name.Some?, val != null, sz != null);
      g != Success ==> st == g && (val != null ==> val[..] == old(val[..])) && (sz != null ==> sz.value == old(sz.value))
    ensures Guard(s != null, section.Some?, name.Some?, val != null, sz != null) == Success ==>
      var r := View(s.sections, section.value, name.value, DoubleArrayType);
      && st == PreallocatedStatus(s.sections, section.value, name.value, DoubleArrayType, maxsize)
      && (r.Err? ==> sz.value == old(sz.value) && val[..] == old(val[..]))
      && (r.Ok? ==> sz.value == |r.value.doubles|)
      && (r.Ok? && |r.value.doubles| > SizeCast(maxsize) ==> val[..] == old(val[..]))
      && (r.Ok? && |r.value.doubles| <= SizeCast(maxsize) ==>
            val[..|r.value.doubles|] == r.value.doubles && val[|r.value.doubles|..] == old(val[|r.value.doubles|..]))
  {
    var g := Guard(s != null, section.Some?, name.Some?, val != null, sz != null);
    if g != Success {
      return g;
    }
    var r := View(s.sections, section.value, name.value, DoubleArrayType);
    if r.Err? {
      return CatchStatus(r.error);
    }
    var data := r.value.doubles;
    sz.value := |data|;
    if |data| > SizeCast(maxsize) {
      return SizeInsufficient;
    }
    CopyInto(data, val);
    return Success;
  }

  // ---------------------------------------------------------------------------
  // Puts and replaces
  // ---------------------------------------------------------------------------

  /** The first `sz` elements of a caller's buffer, None for a NULL pointer (a negative size reads nothing). */
  function IntPayload(val: array?<Int32>, sz: int): Option<Value>
    reads val
  {
    if val == null then None else Some(IntArr(if 0 <= sz <= val.Length then val[..sz] else []))
  }

  function DoublePayload(val: array?<Float64>, sz: int): Option<Value>
    reads val
  {
    if val == null then None else Some(DoubleArr(if 0 <= sz <= val.Length then val[..sz] else []))
  }

  /** The string `string(val)` builds from a `const char*`, None for NULL. */
  function StringPayload(val: Option<string>): Option<Value>
  {
    if val.None? then None else Some(Str(CString(val.value)))
  }

  /** c_datablock_put_int, _put_bool, _put_double, _put_complex: the three pointer checks, then put_val. */
  method PutScalar(s: DataBlock?, section: Option<CText>, name: Option<CText>, v: Value) returns (st: Status)
    requires IsScalar(v.Tag())
    modifies s
    ensures s == null ==> st == DatablockNull
    ensures s != null ==> Step(st, s.sections) == EntryWrite(old(s.sections), section, name, Some(v), false, false)
  {
    if s == null {
      return DatablockNull;
    }
    var g := Guard(true, section.Some?, name.Some?, true, true);
    if g != Success {
      return g;
    }
    st := s.PutVal(section.value, name.value, v);
  }

  /** c_datablock_put_string: the value pointer is checked after the name. */
  method PutString(s: DataBlock?, section: Option<CText>, name: Option<CText>, val: Option<CText>) returns (st: Status)
    modifies s
    ensures s == null ==> st == DatablockNull
    ensures s != null ==> Step(st, s.sections) == EntryWrite(old(s.sections), section, name, StringPayload(val), false, false)
  {
    if s == null {
      return DatablockNull;
    }
    var g := Guard(true, section.Some?, name.Some?, val.Some?, true);
    if g != Success {
      return g;
    }
    st := s.PutVal(section.value, name.value, Str(CString(val.value)));
  }

  /** c_datablock_put_int_array_1d: a negative size is refused after the pointer checks and before the store is touched. */
  method PutIntArray(s: DataBlock?, section: Option<CText>, name: Option<CText>, val: array?<Int32>, sz: int) returns (st: Status)
    requires s != null && section.Some? && name.Some? && val != null && sz >= 0 ==> sz <= val.Length
    modifies s
    ensures s == null ==> st == DatablockNull
    ensures s != null ==> Step(st, s.sections) == EntryWrite(old(s.sections), section, name, IntPayload(val, sz), sz < 0, false)
  {
    if s == null {
      return DatablockNull;
    }
    var g := Guard(true, section.Some?, name.Some?, val != null, true);
    if g != Success {
      return g;
    }
    if sz < 0 {
      return SizeNegative;
    }
    st := s.PutVal(section.value, name.value, IntArr(val[..sz]));
  }

  /** c_datablock_put_double_array_1d. */
  method PutDoubleArray(s: DataBlock?, section: Option<CText>, name: Option<CText>, val: array?<Float64>, sz: int) returns (st: Status)
    requires s != null && section.Some? && name.Some? && val != null && sz >= 0 ==> sz <= val.Length
    modifies s
    ensures s == null ==> st == DatablockNull
    ensures s != null ==> Step(st, s.sections) == EntryWrite(old(s.sections), section, name, DoublePayload(val, sz), sz < 0, false)
  {
    if s == null {
      return DatablockNull;
    }
    var g := Guard(true, section.Some?, name.Some?, val != null, true);
    if g != Success {
      return g;
    }
    if sz < 0 {
      return SizeNegative;
    }
    st := s.PutVal(section.value, name.value, DoubleArr(val[..sz]));
  }

  /** c_datablock_replace_int, _replace_bool, _replace_double, _replace_complex. */
  method ReplaceScalar(s: DataBlock?, section: Option<CText>, name: Option<CText>, v: Value) returns (st: Status)
    requires IsScalar(v.Tag())
    modifies s
    ensures s == null ==> st == DatablockNull
    ensures s != null ==> Step(st, s.sections) == EntryWrite(old(s.sections), section, name, Some(v), false, true)
  {
    if s == null {
      return DatablockNull;
    }
    var g := Guard(true, section.Some?, name.Some?, true, true);
    if g != Success {
      return g;
    }
    st := s.ReplaceVal(section.value, name.value, v);
  }

  /** c_datablock_replace_string. */
  method ReplaceString(s: DataBlock?, section: Option<CText>, name: Option<CText>, val: Option<CText>) returns (st: Status)
    modifies s
    ensures s == null ==> st == DatablockNull
    ensures s != null ==> Step(st, s.sections) == EntryWrite(old(s.sections), section, name, StringPayload(val), false, true)
  {
    if s == null {
      return DatablockNull;
    }
    var g := Guard(true, section.Some?, name.Some?, val.Some?, true);
    if g != Success {
      return g;
    }
    st := s.ReplaceVal(section.value, name.value, Str(CString(val.value)));
  }

  /** c_datablock_replace_int_array_1d. */
  method ReplaceIntArray(s: DataBlock?, section: Option<CText>, name: Option<CText>, val: array?<Int32>, sz: int) returns (st: Status)
    requires s != null && section.Some? && name.Some? && val != null && sz >= 0 ==> sz <= val.Length
    modifies s
    ensures s == null ==> st == DatablockNull
    ensures s != null ==> Step(st, s.sections) == EntryWrite(old(s.sections), section, name, IntPayload(val, sz), sz < 0, true)
  {
    if s == null {
      return DatablockNull;
    }
    var g := Guard(true, section.Some?, name.Some?, val != null, true);
    if g != Success {
      return g;
    }
    if sz < 0 {
      return SizeNegative;
    }
    st := s.ReplaceVal(section.value, name.value, IntArr(val[..sz]));
  }

  /** c_datablock_replace_double_array_1d. */
  method ReplaceDoubleArray(s: DataBlock?, section: Option<CText>, name: Option<CText>, val: array?<Float64>, sz: int) returns (st: Status)
    requires s != null && section.Some? && name.Some? && val != null && sz >= 0 ==> sz <= val.Length
    modifies s
    ensures s == null ==> st == DatablockNull
    ensures s != null ==> Step(st, s.sections) == EntryWrite(old(s.sections), section, name, DoublePayload(val, sz), sz < 0, true)
  {
    if s == null {
      return DatablockNull;
    }
    var g := Guard(true, section.Some?, name.Some?, val != null, true);
    if g != Success {
      return g;
    }
    if sz < 0 {
      return SizeNegative;
    }
    st := s.ReplaceVal(section.value, name.value, DoubleArr(val[..sz]));
  }
}
