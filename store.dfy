/**
 * The typed, sectioned key/value store behind the C interface: a DataBlock
 * owns an ordered map from section name to Section, and a Section maps value
 * names to typed values.
 *
 * The lookups of src/datablock/datablock.cc are members of class DataBlock.
 * The templated get/put/replace/view operations and the Section and Entry
 * classes live in files that are not part of this model; they appear here as
 * the pure functions View, Get, GetDefault, Put and Replace over the map of
 * sections, with the behaviour their callers in c_datablock.cc rely on.
 */
module Store {
  import opened Wrappers

  /** An IEEE-754 double kept as its 64-bit pattern: the store never computes on doubles. */
  newtype Float64 = bits: int | 0 <= bits < 0x1_0000_0000_0000_0000

  /** The C `int` the store holds in integer entries. */
  newtype Int32 = x: int | -0x8000_0000 <= x < 0x8000_0000

  /** The type tag of an entry (datablock_type_t). */
  datatype TypeTag =
    | IntType | BoolType | DoubleType | ComplexType | StringType
    | IntArrayType | DoubleArrayType

  /** One typed entry: exactly one payload, whose constructor is its type. */
  datatype Value =
    | Int(i: Int32)
    | Bool(b: bool)
    | Double(d: Float64)
    | Complex(re: Float64, im: Float64)
    | Str(s: string)
    | IntArr(ints: seq<Int32>)
    | DoubleArr(doubles: seq<Float64>)
  {
    function Tag(): TypeTag {
      match this
      case Int(_) => IntType
      case Bool(_) => BoolType
      case Double(_) => DoubleType
      case Complex(_, _) => ComplexType
      case Str(_) => StringType
      case IntArr(_) => IntArrayType
      case DoubleArr(_) => DoubleArrayType
    }

    /** Element count: the length of an array, 1 for every scalar. */
    function Size(): int {
      match this
      case IntArr(a) => |a|
      case DoubleArr(a) => |a|
      case _ => 1
    }
  }

  /** The DATABLOCK_STATUS codes the C interface returns; Success is the code 0. */
  datatype Status =
    | Success
    | DatablockNull
    | SectionNull
    | SectionNotFound
    | NameNull
    | NameNotFound
    | NameAlreadyExists
    | ValueNull
    | WrongValueType
    | MemoryAllocFailure
    | SizeNull
    | SizeNegative
    | SizeInsufficient
    | LogicError

  /** The exceptions `view` throws: DataBlock::BadDataBlockAccess, Section::BadSectionAccess, Entry::BadEntry. */
  datatype Fault = BadDataBlockAccess | BadSectionAccess | BadEntry

  type Section = map<string, Value>
  type Sections = map<string, Section>

  /** The state after a write and the status the write returned. */
  datatype Step = Step(status: Status, store: Sections)

  /** The status code the C interface reports for each lower-layer exception. */
  function CatchStatus(f: Fault): (st: Status)
    ensures st != Success
  {
    match f
    case BadDataBlockAccess => SectionNotFound
    case BadSectionAccess => NameNotFound
    case BadEntry => WrongValueType
  }

  /** view<T>(section, name): the stored value when it has the requested type, otherwise the exception thrown. */
  function View(store: Sections, section: string, name: string, tag: TypeTag): (r: Result<Value, Fault>)
    ensures r.Ok? <==> section in store && name in store[section] && store[section][name].Tag() == tag
    ensures r.Ok? ==> r.value == store[section][name] && r.value.Tag() == tag
    ensures r == Err(BadDataBlockAccess) <==> section !in store
    ensures r == Err(BadSectionAccess) <==> section in store && name !in store[section]
  {
    if section !in store then Err(BadDataBlockAccess)
    else if name !in store[section] then Err(BadSectionAccess)
    else if store[section][name].Tag() != tag then Err(BadEntry)
    else Ok(store[section][name])
  }

  /** get_val(section, name, val): the status-returning read. */
  function Get(store: Sections, section: string, name: string, tag: TypeTag): (r: Result<Value, Status>)
    ensures r.Ok? <==> section in store && name in store[section] && store[section][name].Tag() == tag
    ensures r.Ok? ==> r.value == store[section][name]
    ensures r == Err(SectionNotFound) <==> section !in store
    ensures r == Err(NameNotFound) <==> section in store && name !in store[section]
    ensures r == Err(WrongValueType) <==> section in store && name in store[section] && store[section][name].Tag() != tag
  {
    match View(store, section, name, tag)
    case Ok(v) => Ok(v)
    case Err(f) => Err(CatchStatus(f))
  }

  /** get_val(section, name, default, val): an absent section or name yields the default; a wrong type is still an error. */
  function GetDefault(store: Sections, section: string, name: string, def: Value): (r: Result<Value, Status>)
    ensures section !in store || name !in store[section] ==> r == Ok(def)
    ensures section in store && name in store[section] ==>
      (r.Ok? <==> store[section][name].Tag() == def.Tag()) && (r.Ok? ==> r.value == store[section][name])
    ensures r.Ok? ==> r.value.Tag() == def.Tag()
    ensures r.Err? ==> r.error == WrongValueType
  {
    if section !in store || name !in store[section] then Ok(def)
    else if store[section][name].Tag() != def.Tag() then Err(WrongValueType)
    else Ok(store[section][name])
  }

  /** put_val(section, name, v): create the section if needed, then insert a name that must be new. */
  function Put(store: Sections, section: string, name: string, v: Value): (r: Step)
    ensures r.status == Success <==> !(section in store && name in store[section])
    ensures r.status != Success ==> r == Step(NameAlreadyExists, store)
    ensures r.status == Success ==> section in r.store && name in r.store[section] && r.store[section][name] == v
  {
    var sec := if section in store then store[section] else map[];
    if name in sec then Step(NameAlreadyExists, store)
    else Step(Success, store[section := sec[name := v]])
  }

  /** replace_val(section, name, v): overwrite an existing name holding a value of the same type. */
  function Replace(store: Sections, section: string, name: string, v: Value): (r: Step)
    ensures r.status == Success <==> Get(store, section, name, v.Tag()).Ok?
    ensures r.status != Success ==> r.store == store && Err(r.status) == Get(store, section, name, v.Tag())
    ensures r.status == Success ==>
      && r.store.Keys == store.Keys
      && r.store[section].Keys == store[section].Keys
      && r.store[section][name] == v
  {
    if section !in store then Step(SectionNotFound, store)
    else if name !in store[section] then Step(NameNotFound, store)
    else if store[section][name].Tag() != v.Tag() then Step(WrongValueType, store)
    else Step(Success, store[section := store[section][name := v]])
  }

  /** The entry stored under a section and a name, if any. */
  function EntryAt(store: Sections, section: string, name: string): Option<Value>
  {
    if section in store && name in store[section] then Some(store[section][name]) else None
  }

  /** The element count of one name in one section, -1 when the name is absent. */
  function SectionSize(sec: Section, name: string): int
  {
    if name in sec then sec[name].Size() else -1
  }

  // ---------------------------------------------------------------------------
  // Properties of the read and write rules
  // ---------------------------------------------------------------------------

  /** A put succeeds exactly when the name is new in its section; afterwards a get of the same type returns the value and every other entry reads as before. */
  lemma PutThenGet(store: Sections, section: string, name: string, v: Value)
    ensures var r := Put(store, section, name, v);
      && (r.status == Success <==> !(section in store && name in store[section]))
      && (r.status == Success ==> Get(r.store, section, name, v.Tag()) == Ok(v))
      && (r.status == Success ==>
            forall s, n :: (s, n) != (section, name) ==> EntryAt(r.store, s, n) == EntryAt(store, s, n))
  {
  }

  /** A second put of the same name fails with NameAlreadyExists and leaves the first value in place. */
  lemma PutTwiceFails(store: Sections, section: string, name: string, v: Value, w: Value)
    requires Put(store, section, name, v).status == Success
    ensures var s1 := Put(store, section, name, v).store;
      Put(s1, section, name, w) == Step(NameAlreadyExists, s1)
      && Get(s1, section, name, v.Tag()) == Ok(v)
  {
    PutThenGet(store, section, name, v);
  }

  /** A replace fails on an absent section or name or a different type, leaving the store unchanged; otherwise the new value is read back. */
  lemma ReplaceRules(store: Sections, section: string, name: string, v: Value)
    ensures var r := Replace(store, section, name, v);
      && (section !in store ==> r == Step(SectionNotFound, store))
      && (section in store && name !in store[section] ==> r == Step(NameNotFound, store))
      && (section in store && name in store[section] && store[section][name].Tag() != v.Tag() ==>
            r == Step(WrongValueType, store))
      && (r.status == Success ==> Get(r.store, section, name, v.Tag()) == Ok(v) && r.store.Keys == store.Keys)
      && (r.status == Success ==>
            forall s, n :: (s, n) != (section, name) ==> EntryAt(r.store, s, n) == EntryAt(store, s, n))
  {
  }

  /** Get and GetDefault agree whenever the entry exists; GetDefault falls back exactly when it does not. */
  lemma DefaultOnlyOnAbsence(store: Sections, section: string, name: string, def: Value)
    ensures var r := GetDefault(store, section, name, def);
      && (Get(store, section, name, def.Tag()).Ok? ==> r == Get(store, section, name, def.Tag()))
      && (Get(store, section, name, def.Tag()) == Err(WrongValueType) ==> r == Err(WrongValueType))
      && (Get(store, section, name, def.Tag()) in {Err(SectionNotFound), Err(NameNotFound)} ==> r == Ok(def))
  {
  }

  /** A successful put adds one section exactly when its section was new; a failed write leaves the count alone. */
  lemma {:induction false} PutSectionCount(store: Sections, section: string, name: string, v: Value)
    ensures var r := Put(store, section, name, v);
      |r.store| == |store| + (if r.status == Success && section !in store then 1 else 0)
  {
    var r := Put(store, section, name, v);
    if r.status == Success {
      if section in store {
        assert r.store.Keys == store.Keys;
      } else {
        assert r.store.Keys == store.Keys + {section};
      }
    }
  }

  // ---------------------------------------------------------------------------
  // Section order: std::map<std::string, Section> iterates its keys in the
  // lexicographic order of std::string, comparing characters as unsigned
  // values (the same order as comparing code points).
  // ---------------------------------------------------------------------------

  /** a < b for std::string: the first differing character decides, and a proper prefix comes first. */
  predicate LexLess(a: string, b: string)
  {
    if a == [] then b != []
    else if b == [] then false
    else a[0] < b[0] || (a[0] == b[0] && LexLess(a[1..], b[1..]))
  }

  lemma {:induction false} LexLessIrreflexive(a: string)
    ensures !LexLess(a, a)
  {
    if a != [] { LexLessIrreflexive(a[1..]); }
  }

  lemma {:induction false} LexLessTransitive(a: string, b: string, c: string)
    requires LexLess(a, b) && LexLess(b, c)
    ensures LexLess(a, c)
  {
    if a != [] && a[0] == b[0] && b[0] == c[0] {
      LexLessTransitive(a[1..], b[1..], c[1..]);
    }
  }

  lemma {:induction false} LexLessTotal(a: string, b: string)
    requires a != b
    ensures LexLess(a, b) || LexLess(b, a)
  {
    if a != [] && b != [] && a[0] == b[0] {
      assert a == [a[0]] + a[1..] && b == [b[0]] + b[1..];
      LexLessTotal(a[1..], b[1..]);
    }
  }

  /** k is the smallest key of ks. */
  ghost predicate IsLeast(k: string, ks: set<string>)
  {
    k in ks && forall j :: j in ks ==> j == k || LexLess(k, j)
  }

  lemma {:induction false} LeastExists(ks: set<string>)
    requires ks != {}
    ensures exists k :: IsLeast(k, ks)
    decreases |ks|
  {
    var x :| x in ks;
    var rest := ks - {x};
    if rest == {} {
      assert ks == {x};
      assert IsLeast(x, ks);
    } else {
      LeastExists(rest);
      var y :| IsLeast(y, rest);
      LexLessTotal(x, y);
      if LexLess(x, y) {
        forall j | j in ks ensures j == x || LexLess(x, j) {
          if j != x && j != y { LexLessTransitive(x, y, j); }
        }
        assert IsLeast(x, ks);
      } else {
        assert IsLeast(y, ks);
      }
    }
  }

  lemma LeastUnique(k1: string, k2: string, ks: set<string>)
    requires IsLeast(k1, ks) && IsLeast(k2, ks)
    ensures k1 == k2
  {
    if k1 != k2 {
      LexLessTransitive(k1, k2, k1);
      LexLessIrreflexive(k1);
    }
  }

  /** The keys of a finite set of section names in the order a std::map visits them. */
  ghost function SortedKeys(ks: set<string>): (r: seq<string>)
    ensures |r| == |ks|
    ensures forall k :: k in r <==> k in ks
    ensures forall i, j :: 0 <= i < j < |r| ==> LexLess(r[i], r[j])
    decreases |ks|
  {
    if ks == {} then []
    else
      LeastExists(ks);
      var k :| IsLeast(k, ks);
      var rest := SortedKeys(ks - {k});
      LeastCons(k, ks, rest);
      [k] + rest
  }

  /** The least key followed by the sorted rest is the sorted whole. */
  lemma LeastCons(k: string, ks: set<string>, rest: seq<string>)
    requires IsLeast(k, ks)
    requires |rest| == |ks - {k}|
    requires forall m :: m in rest <==> m in ks - {k}
    requires forall i, j :: 0 <= i < j < |rest| ==> LexLess(rest[i], rest[j])
    ensures var r := [k] + rest;
      && |r| == |ks|
      && (forall m :: m in r <==> m in ks)
      && (forall i, j :: 0 <= i < j < |r| ==> LexLess(r[i], r[j]))
  {
    var r := [k] + rest;
    forall i, j | 0 <= i < j < |r| ensures LexLess(r[i], r[j]) {
      if i > 0 {
        assert r[i] == rest[i - 1] && r[j] == rest[j - 1];
      } else {
        assert r[j] in ks - {k};
      }
    }
  }

  /** Removing the least key drops the first element of the sorted order. */
  lemma SortedKeysStep(ks: set<string>, k: string)
    requires IsLeast(k, ks)
    ensures SortedKeys(ks) == [k] + SortedKeys(ks - {k})
  {
    LeastExists(ks);
    var k' :| IsLeast(k', ks) && SortedKeys(ks) == [k'] + SortedKeys(ks - {k'});
    LeastUnique(k, k', ks);
  }

  /** One step of an iterator over the sorted keys: the least remaining key is the next one in order. */
  lemma SortedKeysAdvance(all: set<string>, rest: set<string>, k: string, n: nat)
    requires n < |all| && SortedKeys(rest) == SortedKeys(all)[n..] && IsLeast(k, rest)
    ensures k == SortedKeys(all)[n]
    ensures SortedKeys(rest - {k}) == SortedKeys(all)[n + 1..]
  {
    var whole, tail, next := SortedKeys(all), SortedKeys(rest), SortedKeys(rest - {k});
    SortedKeysStep(rest, k);
    assert tail == [k] + next;
    assert tail == whole[n..];
    assert next == tail[1..];
  }

  /** The i-th sorted key is the one with exactly i keys below it. */
  lemma {:induction false} SortedKeysRank(ks: set<string>, i: nat)
    requires i < |ks|
    ensures var k := SortedKeys(ks)[i];
      k in ks && (set j | j in ks && LexLess(j, k)) == set m | 0 <= m < i :: SortedKeys(ks)[m]
  {
    var r := SortedKeys(ks);
    var k := r[i];
    forall j | j in ks && LexLess(j, k) ensures j in set m | 0 <= m < i :: r[m] {
      var m :| 0 <= m < |r| && r[m] == j;
      if m >= i {
        if m == i { LexLessIrreflexive(k); } else { LexLessTransitive(k, j, k); LexLessIrreflexive(k); }
      }
    }
  }

  /** The smallest key of a non-empty set of names (one step of a std::map iterator). */
  method Least(ks: set<string>) returns (k: string)
    requires ks != {}
    ensures IsLeast(k, ks)
  {
    k :| k in ks;
    var todo := ks - {k};
    while todo != {}
      invariant todo <= ks && k in ks && k !in todo
      invariant forall j :: j in ks - todo ==> j == k || LexLess(k, j)
      decreases |todo|
    {
      var j :| j in todo;
      if LexLess(j, k) {
        forall m | m in ks - todo ensures m == j || LexLess(j, m) {
          if m != k { LexLessTransitive(j, k, m); }
        }
        k := j;
      } else {
        LexLessTotal(j, k);
      }
      todo := todo - {j};
    }
  }

  // ---------------------------------------------------------------------------
  // The store object
  // ---------------------------------------------------------------------------

  class DataBlock {
    /** sections_: section name to Section. */
    var sections: Sections

    constructor()
      ensures sections == map[]
    {
      sections := map[];
    }

    /** has_val: SectionNotFound for an absent section, otherwise Success or NameNotFound. */
    function HasVal(section: string, name: string): (r: Status)
      reads this
      ensures r == SectionNotFound <==> section !in sections
      ensures r == Success <==> section in sections && name in sections[section]
      ensures r == NameNotFound <==> section in sections && name !in sections[section]
    {
      if section !in sections then SectionNotFound
      else if name in sections[section] then Success
      else NameNotFound
    }

    /** get_size: -1 for an absent section, otherwise the section's size for the name. */
    function GetSize(section: string, name: string): (r: int)
      reads this
      ensures section !in sections ==> r == -1
      ensures section in sections && name !in sections[section] ==> r == -1
      ensures section in sections && name in sections[section] ==> r == sections[section][name].Size() && r >= 0
    {
      if section !in sections then -1 else SectionSize(sections[section], name)
    }

    /** get_type: SectionNotFound for an absent section, otherwise the section's answer. */
    function GetType(section: string, name: string): (r: Result<TypeTag, Status>)
      reads this
      ensures r == Err(SectionNotFound) <==> section !in sections
      ensures r == Err(NameNotFound) <==> section in sections && name !in sections[section]
      ensures r.Ok? <==> section in sections && name in sections[section]
      ensures r.Ok? ==> r.value == sections[section][name].Tag()
    {
      if section !in sections then Err(SectionNotFound)
      else if name !in sections[section] then Err(NameNotFound)
      else Ok(sections[section][name].Tag())
    }

    function HasSection(name: string): (r: bool)
      reads this
      ensures r <==> name in sections
    {
      name in sections
    }

    /** num_sections: the number of distinct section names, which is also the length of the iteration order. */
    function NumSections(): (r: nat)
      reads this
      ensures r == |sections.Keys| == |SortedKeys(sections.Keys)|
    {
      |sections|
    }

    /** section_name(i): BadDataBlockAccess when i is out of range, otherwise the i-th name in sorted order. */
    method SectionName(i: nat) returns (r: Result<string, Fault>)
      ensures r.Err? <==> i >= NumSections()
      ensures r.Err? ==> r.error == BadDataBlockAccess
      ensures r.Ok? ==> r.value in sections && r.value == SortedKeys(sections.Keys)[i]
    {
      if i >= |sections| {
        return Err(BadDataBlockAccess);
      }
      ghost var all := sections.Keys;
      var rest := sections.Keys;
      var n := 0;
      while n < i
        invariant n <= i < |all|
        invariant SortedKeys(rest) == SortedKeys(all)[n..]
      {
        var k := Least(rest);
        SortedKeysAdvance(all, rest, k, n);
        rest := rest - {k};
        n := n + 1;
      }
      var k := Least(rest);
      SortedKeysAdvance(all, rest, k, n);
      return Ok(k);
    }

    /** clear(): drop every section. */
    method Clear()
      modifies this
      ensures sections == map[]
      ensures NumSections() == 0 && forall n :: !HasSection(n)
    {
      sections := map[];
    }

    method PutVal(section: string, name: string, v: Value) returns (st: Status)
      modifies this
      ensures Step(st, sections) == Put(old(sections), section, name, v)
    {
      var r := Put(sections, section, name, v);
      st, sections := r.status, r.store;
    }

    method ReplaceVal(section: string, name: string, v: Value) returns (st: Status)
      modifies this
      ensures Step(st, sections) == Replace(old(sections), section, name, v)
    {
      var r := Replace(sections, section, name, v);
      st, sections := r.status, r.store;
    }
  }
}
