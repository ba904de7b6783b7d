# CosmoSIS data block, C interface and run-configuration helpers in Dafny

This project models three pieces of CosmoSIS:

- **The data block** (`src/datablock/datablock.cc`). This is the typed, sectioned key/value store that pipeline modules exchange. A `DataBlock` owns an ordered map from section name to section. A section maps value names to typed values: int, bool, double, complex, string, int vector and double vector. The model is `Store.DataBlock`, a class with a `sections` field. It also contains the functions `View`, `Get`, `GetDefault`, `Put` and `Replace`, which give the read and write rules that the C interface relies on. The sorted order in which a `std::map` visits its keys is defined as `Store.SortedKeys` and proved to be the strict `std::string` order.
- **The C interface** (`cosmosis/datablock/c_datablock.cc`). It covers:
  - the argument-check chain of every entry point (handle, section, name, value, size);
  - the mapping of lower-layer exceptions to `DATABLOCK_STATUS` codes;
  - the ownership rules: fresh copies for string and array gets, and caller buffers for the preallocated gets;
  - the puts and replaces;
  - the two-dimensional grid codec, which writes a table row-major with an order sentinel and reads it back directly or transposed.

  C pointers are nullable references. An output pointer is a `Cell`, a caller buffer is an `array`, and a `const char*` argument is an `Option<CText>`: the characters before its terminating NUL, so none of them is NUL. The copy loops are methods over arrays with loop invariants. Each is proved against a specification function on sequences.
- **The run-configuration helpers** (`cosmosis/campaign.py`). These edit the whitespace-separated `[pipeline] modules` list of a parameter file: after, before, replace, delete, append and prepend. They also apply `section.option=value`, `sampler=...` and `del ...` updates, dispatch textual pipeline updates, and point a run's outputs into a directory. The parameter file is `Inifiles.Inifile`, a class over the `configparser` contents. Each helper is a method that edits it in place. Each method is proved against a function on the contents, and the lemmas state what those functions do. `PyText` models the Python string operations the helpers use: `split`, `' '.join`, `strip`, and `split(sep, 1)` with unpacking.

Modules:

| module | file | content |
|---|---|---|
| `Wrappers` | wrappers.dfy | Option and Result |
| `Store` | store.dfy | the data block |
| `CDatablock` | c_datablock.dfy | the C entry points |
| `GridCodec` | grid.dfy | the grid put and get |
| `PyText` | pytext.dfy | Python string operations |
| `Inifiles` | inifile.dfy | the parameter file |
| `Campaign` | campaign.dfy | the campaign helpers |

## Model

| member | source | states |
|---|---|---|
| Store.DataBlock.constructor | cosmosis/datablock/c_datablock.cc:22-25 | make_c_datablock: a new block holds no sections |
| Store.DataBlock.HasVal | src/datablock/datablock.cc:5-11 | SECTION_NOT_FOUND exactly when the section is absent; SUCCESS exactly when the section holds the name; NAME_NOT_FOUND exactly when the section exists without it |
| Store.DataBlock.GetSize | src/datablock/datablock.cc:13-19 | -1 for an absent section or an absent name; otherwise the entry's element count (array length, 1 for a scalar), never negative |
| Store.DataBlock.GetType | src/datablock/datablock.cc:21-27 | SECTION_NOT_FOUND exactly when the section is absent, NAME_NOT_FOUND exactly when the name is; otherwise the stored entry's type tag |
| Store.DataBlock.HasSection | src/datablock/datablock.cc:30-33 | true exactly when the name is a key of the section map |
| Store.DataBlock.NumSections | src/datablock/datablock.cc:35-38 | the number of distinct section names, which is also the length of the iteration order |
| Store.DataBlock.SectionName | src/datablock/datablock.cc:40-47 | BadDataBlockAccess exactly when i >= num_sections; otherwise the i-th name in the map's sorted order, reached by a loop that takes the least remaining key i times |
| Store.DataBlock.Clear | src/datablock/datablock.cc:49-52 | afterwards the block is empty, num_sections is 0 and has_section is false for every name |
| Store.DataBlock.PutVal | cosmosis/datablock/c_datablock.cc:505-506 | put_val changes the block exactly as the Put rule says |
| Store.DataBlock.ReplaceVal | cosmosis/datablock/c_datablock.cc:631-632 | replace_val changes the block exactly as the Replace rule says |
| Store.SortedKeys | src/datablock/datablock.cc:43-45 | the order in which the section map is walked: every key exactly once, in strictly increasing std::string order |
| Store.SortedKeysRank | src/datablock/datablock.cc:43-45 | the i-th name in that order is the one with exactly i names below it, which is where std::advance(begin, i) stops |
| Store.SortedKeysAdvance | src/datablock/datablock.cc:43-44 | one iterator step: the least of the remaining names is the next name in order |
| Store.SortedKeysStep | src/datablock/datablock.cc:43-44 | the sorted order of a set is its least name followed by the sorted order of the rest |
| Store.Least | src/datablock/datablock.cc:43-44 | a loop over a non-empty set of names finds the least one under std::string's < |
| Store.LeastExists | src/datablock/datablock.cc:43-44 | every non-empty finite set of names has a least one |
| Store.LeastUnique | src/datablock/datablock.cc:43-44 | that least name is unique |
| Store.LeastCons | src/datablock/datablock.cc:43-44 | the least name put in front of the sorted rest is sorted and holds the whole set |
| Store.LexLessIrreflexive | src/datablock/datablock.cc:43-44 | std::string's < is irreflexive |
| Store.LexLessTransitive | src/datablock/datablock.cc:43-44 | std::string's < is transitive |
| Store.LexLessTotal | src/datablock/datablock.cc:43-44 | any two different strings are ordered one way or the other |
| Store.CatchStatus | cosmosis/datablock/c_datablock.cc:347-350 | a caught lower-layer exception never becomes SUCCESS |
| Store.View | cosmosis/datablock/c_datablock.cc:340 | view<T> returns the stored value exactly when the section and name exist and the type matches; BadDataBlockAccess exactly when the section is absent, BadSectionAccess exactly when the name is |
| Store.Get | cosmosis/datablock/c_datablock.cc:146 | get_val(section, name, val): the stored value exactly when the section and name exist and the type matches; SECTION_NOT_FOUND, NAME_NOT_FOUND and WRONG_VALUE_TYPE exactly in the three failing cases |
| Store.GetDefault | cosmosis/datablock/c_datablock.cc:162 | get_val with a default: the default for an absent section or name; otherwise the stored value when its type matches the default's, and WRONG_VALUE_TYPE when it does not |
| Store.Put | cosmosis/datablock/c_datablock.cc:506 | put_val: SUCCESS exactly when the name is new in its section (a missing section is created), and then the name holds the value; otherwise NAME_ALREADY_EXISTS with the block unchanged |
| Store.Replace | cosmosis/datablock/c_datablock.cc:632 | replace_val: SUCCESS exactly when a get of the value's type would succeed, and then the name holds the new value with the same sections and names; otherwise the status that get reports, with the block unchanged |
| Store.PutThenGet | cosmosis/c_datablock.h:62-66 | a put succeeds exactly when the name is new in its section; afterwards a get of the same type returns the value, and every other entry reads as before |
| Store.PutTwiceFails | cosmosis/c_datablock.h:62-66 | a second put of the same name fails with NAME_ALREADY_EXISTS and leaves the first value in place |
| Store.ReplaceRules | cosmosis/c_datablock.h:73-78 | a replace fails on a missing section, a missing name or a different type, and then leaves the store unchanged; a successful replace reads back and keeps the same sections |
| Store.DefaultOnlyOnAbsence | cosmosis/datablock/c_datablock.cc:149-163 | a get with a default agrees with the plain get when the entry exists, keeps its WRONG_VALUE_TYPE, and yields the default exactly when the section or name is missing |
| Store.PutSectionCount | cosmosis/datablock/c_datablock.cc:46-51 | a successful put adds one section exactly when its section was new; a failed put leaves the count unchanged |
| CDatablock.Guard | cosmosis/datablock/c_datablock.cc:332-336 | the checks in their fixed order: DATABLOCK_NULL exactly when the handle is NULL, SECTION_NULL exactly when the handle is set and the section is NULL, and so on through NAME_NULL, VALUE_NULL and SIZE_NULL; SUCCESS exactly when all are set |
| CDatablock.CString | cosmosis/datablock/c_datablock.cc:295-296 | what a c_str() pointer shows a C reader: the prefix before the first NUL, which contains no NUL |
| CDatablock.CStringIdentity | cosmosis/datablock/c_datablock.cc:295-296 | a string without NUL crosses the C boundary unchanged |
| CDatablock.EntryGet | cosmosis/datablock/c_datablock.cc:140-146 | a get that succeeds had every pointer set and returns the stored entry, of the requested type |
| CDatablock.EntryGetDefault | cosmosis/datablock/c_datablock.cc:149-163 | a get with a default that succeeds had every pointer set and returns either the default or the stored entry, of the default's type; once the checks pass, an absent entry gives the default and the only failure is WRONG_VALUE_TYPE |
| CDatablock.EntryView | cosmosis/datablock/c_datablock.cc:332-350 | an array view that succeeds had every pointer set and returns the stored entry of the requested type; every failure is a non-success code |
| CDatablock.EntryWrite | cosmosis/datablock/c_datablock.cc:574-581 | a put or replace that succeeds had every pointer set and a non-negative size, and afterwards the name holds exactly the value written |
| CDatablock.FailedWriteUnchanged | cosmosis/datablock/c_datablock.cc:574-581 | every failing put or replace, stopped by a check or refused by the store, leaves the store as it was |
| CDatablock.NegativeSizeFirst | cosmosis/datablock/c_datablock.cc:578 | an array put or replace with sz < 0 returns SIZE_NEGATIVE once the pointers pass, before the store is consulted |
| CDatablock.ArrayGetStatuses | cosmosis/datablock/c_datablock.cc:339-350 | an array get reports SECTION_NOT_FOUND for a missing section, NAME_NOT_FOUND for a missing name and WRONG_VALUE_TYPE for a type mismatch; on success it yields the stored vector; it never reports LOGIC_ERROR |
| CDatablock.PutGetRoundTrip | cosmosis/datablock/c_datablock.cc:495-507 | a scalar or string put of a new name, followed by a get of the same type, returns the value put |
| CDatablock.HasSection | cosmosis/datablock/c_datablock.cc:27-32 | false for a NULL argument; otherwise true exactly when the section exists |
| CDatablock.NumSections | cosmosis/datablock/c_datablock.cc:46-51 | -1 exactly for a NULL handle; otherwise the number of sections |
| CDatablock.NumValues | cosmosis/datablock/c_datablock.cc:53-60 | -1 exactly for a NULL argument or an absent section; otherwise the number of values in the section |
| CDatablock.HasValueAsWritten | cosmosis/datablock/c_datablock.cc:62-73 | false for any NULL argument; otherwise the has_val status read as a _Bool |
| CDatablock.HasValue | cosmosis/datablock/c_datablock.cc:62-73 | the intended answer: true exactly when the handle, section and name are set and the section holds the name |
| CDatablock.HasValueInverted | cosmosis/datablock/c_datablock.cc:72 | for every non-NULL argument the code as written answers the opposite of HasValue |
| CDatablock.GetArrayLength | cosmosis/datablock/c_datablock.cc:75-82 | -1 for a NULL argument; otherwise get_size; a non-negative answer is the stored entry's element count |
| CDatablock.GetSectionName | cosmosis/datablock/c_datablock.cc:84-91 | NULL for a negative index whatever the handle; otherwise NULL exactly when i >= num_sections, and else the i-th section name in sorted order as a C reader sees it (cut at its first NUL) |
| CDatablock.Destroy | cosmosis/datablock/c_datablock.cc:109-120 | DATABLOCK_NULL for a NULL handle; otherwise SUCCESS with the block cleared |
| CDatablock.GetType | cosmosis/datablock/c_datablock.cc:122-132 | a failed check returns its code and leaves *t alone; otherwise get_type's status, with *t written only on success |
| CDatablock.GetScalar | cosmosis/datablock/c_datablock.cc:134-147 | get_int, get_bool, get_double and get_complex: on success *val is the stored value of the requested type; on failure the status is the check's or the store's, and *val is left unchanged |
| CDatablock.GetScalarDefault | cosmosis/datablock/c_datablock.cc:149-163 | the _default variants: the same, with the default returned for a missing section or name |
| CDatablock.StrDup | cosmosis/datablock/c_datablock.cc:296-297 | strdup: NULL when allocation fails, otherwise a fresh buffer holding the C string |
| CDatablock.GetString | cosmosis/datablock/c_datablock.cc:281-299 | a failed get returns the lower-layer status and allocates nothing; on success the caller owns a fresh copy equal to the stored string, or gets MEMORY_ALLOC_FAILURE |
| CDatablock.GetStringDefault | cosmosis/datablock/c_datablock.cc:301-323 | as GetString, with the (NUL-cut) default returned for a missing section or name; a NULL default, like a NULL output pointer, is VALUE_NULL |
| CDatablock.CopyInto | cosmosis/datablock/c_datablock.cc:433 | std::copy: the first n buffer elements become the vector and the rest are unchanged |
| CDatablock.GetIntArray | cosmosis/datablock/c_datablock.cc:325-352 | the checks with the size pointer last, then the exception-to-status mapping; on success a fresh buffer equal to the stored vector, with *sz its length; when the lookup fails both outputs are unchanged; when the allocation fails (an `allocFails` parameter) MEMORY_ALLOC_FAILURE with *val NULL and *sz unchanged |
| CDatablock.GetDoubleArray | cosmosis/datablock/c_datablock.cc:354-381 | the same for vectors of doubles |
| CDatablock.PreallocatedExitAsWritten | cosmosis/datablock/c_datablock.cc:415-438 | as written, a missing section throws BadDataBlockAccess out of the extern "C" function instead of returning a status |
| CDatablock.PreallocatedStatus | cosmosis/datablock/c_datablock.cc:415-438 | with the exceptions caught: SUCCESS exactly when the vector is found and its length is at most `static_cast<size_t>(maxsize)` |
| CDatablock.SizeCast | cosmosis/datablock/c_datablock.cc:432 | `static_cast<size_t>` of an `int`: the value modulo 2^64; a non-negative value is kept and a negative one becomes at least 2^64 - 2^31 |
| CDatablock.NegativeMaxsizeUnchecked | cosmosis/datablock/c_datablock.cc:432 | a negative maxsize passes the size check for every vector an `int` can count, so the whole vector is copied |
| CDatablock.PreallocatedCorrection | cosmosis/datablock/c_datablock.cc:415-438 | the correction changes only the calls that throw, and reports for them what the allocating array get reports |
| CDatablock.GetIntArrayPreallocated | cosmosis/datablock/c_datablock.cc:415-438 | *sz gets the true length whenever the vector is found; longer than `static_cast<size_t>(maxsize)` gives SIZE_INSUFFICIENT and copies nothing; otherwise exactly length elements are copied and the rest of the buffer is unchanged; a NULL argument returns its code before the store is read, and only a call that reaches the copy needs a buffer that holds it |
| CDatablock.GetDoubleArrayPreallocated | cosmosis/datablock/c_datablock.cc:441-464 | the same for vectors of doubles |
| CDatablock.PutScalar | cosmosis/datablock/c_datablock.cc:495-507 | put_int, put_bool, put_double and put_complex: DATABLOCK_NULL for a NULL handle, otherwise the checks and then put_val, as EntryWrite states |
| CDatablock.PutString | cosmosis/datablock/c_datablock.cc:552-565 | the value pointer is checked after the name; the stored string is the C string |
| CDatablock.PutIntArray | cosmosis/datablock/c_datablock.cc:567-582 | SIZE_NEGATIVE after the pointer checks and before the store; otherwise the first sz elements are put; the buffer is read only once every pointer check has passed |
| CDatablock.PutDoubleArray | cosmosis/datablock/c_datablock.cc:584-599 | the same for doubles |
| CDatablock.ReplaceScalar | cosmosis/datablock/c_datablock.cc:621-633 | replace_int, replace_bool, replace_double and replace_complex: the checks, then replace_val |
| CDatablock.ReplaceString | cosmosis/datablock/c_datablock.cc:679-692 | the checks including the value pointer, then replace_val of the C string |
| CDatablock.ReplaceIntArray | cosmosis/datablock/c_datablock.cc:694-709 | SIZE_NEGATIVE before the store; otherwise replace_val of the first sz elements |
| CDatablock.ReplaceDoubleArray | cosmosis/datablock/c_datablock.cc:711-726 | the same for doubles |
| GridCodec.FlattenLength | cosmosis/datablock/c_datablock.cc:765-766 | the flattened nx × ny table has nx*ny entries |
| GridCodec.Flatten | cosmosis/datablock/c_datablock.cc:765-772 | the row-major flattening starts with the first row and ends with the last |
| GridCodec.FlattenAt | cosmosis/datablock/c_datablock.cc:767-772 | row-major layout: entry (i, j) sits at position i*ny + j |
| GridCodec.IndexInBounds | cosmosis/datablock/c_datablock.cc:841-855 | every position the read loops use lies in [0, nx*ny) |
| GridCodec.LastIndex | cosmosis/datablock/c_datablock.cc:841-855 | the last table entry is read from position nx*ny - 1 in either orientation |
| GridCodec.Unflatten | cosmosis/datablock/c_datablock.cc:841-855 | the table a flat vector holds in an orientation is rectangular, nx rows of ny entries |
| GridCodec.UnflattenAt | cosmosis/datablock/c_datablock.cc:841-855 | entry (i, j) is flat[i*ny+j] in the stored order and flat[j*nx+i] transposed |
| GridCodec.Transpose | cosmosis/datablock/c_datablock.cc:849-853 | the transpose has ny rows of nx entries, with t[i][j] == z[j][i] |
| GridCodec.FlattenDirectRoundTrip | cosmosis/datablock/c_datablock.cc:841-846 | reading a flattened table back in the stored order gives the table |
| GridCodec.FlattenTransposedRoundTrip | cosmosis/datablock/c_datablock.cc:849-853 | reading it back with the axes swapped gives its transpose |
| GridCodec.OrderOf | cosmosis/datablock/c_datablock.cc:837-858 | the stored order is tried first: Direct exactly when the sentinel equals "x_cosmosis_order_y", Transposed exactly when it does not but equals "y_cosmosis_order_x" |
| GridCodec.SentinelsDifferForEqualLengths | cosmosis/datablock/c_datablock.cc:778-782 | distinct axis names of equal length give different sentinels in the two orders, which is the case the sentinel exists for |
| GridCodec.SentinelAmbiguous | cosmosis/datablock/c_datablock.cc:778-782 | axis names that contain the marker can make both orders give the same sentinel |
| GridCodec.GridPutNames | cosmosis/datablock/c_datablock.cc:748-786 | a grid put succeeds only with non-negative sizes and with the axes, the table and the sentinel under four distinct names that were all new |
| GridCodec.GridPut | cosmosis/datablock/c_datablock.cc:748-786 | a successful grid put had every name and both axes, non-negative sizes, and leaves the order sentinel "x_cosmosis_order_y" under "_cosmosis_order_z" |
| GridCodec.AxesPut | cosmosis/datablock/c_datablock.cc:760-763 | the axis puts succeed only with the section, both names and both axes given and both sizes non-negative |
| GridCodec.TablePut | cosmosis/datablock/c_datablock.cc:765-786 | the table and sentinel puts succeed only with the section and table name given, and leave the sentinel under its key |
| GridCodec.Fetch | cosmosis/datablock/c_datablock.cc:817-835 | the four reads of a grid get: when they succeed, the axes and the table are the stored double vectors; every failure is a non-success code |
| GridCodec.FetchAxes | cosmosis/datablock/c_datablock.cc:817-820 | the two axis reads: on success both are the stored vectors |
| GridCodec.FetchTable | cosmosis/datablock/c_datablock.cc:823-835 | the table and sentinel reads: on success the table is the stored vector |
| GridCodec.FetchFound | cosmosis/datablock/c_datablock.cc:817-835 | the reads succeed when the axes and table are double vectors and the sentinel is a string, and give them back, the sentinel cut at its first NUL |
| GridCodec.GridDecode | cosmosis/datablock/c_datablock.cc:804-876 | the corrected grid get: a decoded table is |xs| × |ys|; every failure is a non-success code |
| GridCodec.GridDecodeAsWritten | cosmosis/datablock/c_datablock.cc:804-876 | the get as written: a decoded table is |xs| × |ys|; a refusal is a non-success code; where it reads past the end, the position read lies at or after the end of the flat vector and inside the nx*ny table |
| GridCodec.DecodeParts | cosmosis/datablock/c_datablock.cc:836-868 | the decode of what was fetched keeps both axes and gives an |xs| × |ys| table |
| GridCodec.GridDecodeStages | cosmosis/datablock/c_datablock.cc:804-876 | the corrected get is the fetches, then the decode of what they gave |
| GridCodec.GridDecodeCorrection | cosmosis/datablock/c_datablock.cc:841-855 | where the get as written decodes or refuses, the corrected get gives the same result; where it reads past the end of the flat vector, the reads all succeeded and the corrected get reports SIZE_INSUFFICIENT instead |
| GridCodec.ShortTableReadsPast | cosmosis/datablock/c_datablock.cc:841-846 | on a 2 × 2 grid with a one-entry table the get as written reads position 3 of a one-entry vector, and the corrected get refuses it |
| GridCodec.GridRoundTrip | cosmosis/datablock/c_datablock.cc:748-876 | a successful grid put is read back as the same grid under the same names, and as the transposed grid with the axis names swapped whenever the two sentinels differ |
| GridCodec.Rows | cosmosis/datablock/c_datablock.cc:767-772 | the table a caller's double** holds is nx rows of ny entries |
| GridCodec.CopyRow | cosmosis/datablock/c_datablock.cc:768-770 | the inner copy loop appends one row's ny entries to the buffer and keeps what came before |
| GridCodec.RowsHeld | cosmosis/datablock/c_datablock.cc:767-772 | row i of the caller's table holds row i of the table it denotes |
| GridCodec.FlattenRowMajor | cosmosis/datablock/c_datablock.cc:765-772 | the nested loop with its running counter fills a fresh buffer of nx*ny entries with the row-major flattening |
| GridCodec.PutTable | cosmosis/datablock/c_datablock.cc:765-774 | the copy and the put of the flat buffer write the flattened table under name_z |
| GridCodec.PutAxes | cosmosis/datablock/c_datablock.cc:760-763 | x is put, then y only if x succeeded; `x` is read only past the pointer checks, and `y` only after the x put succeeded |
| GridCodec.PutDoubleGrid | cosmosis/datablock/c_datablock.cc:748-786 | x, y, the flattened table and then the sentinel, stopping at the first failure with earlier puts kept; a failed axis put returns its status without reading `z` |
| GridCodec.AllocateGrid | cosmosis/datablock/c_datablock.cc:788-794 | nx fresh, pairwise distinct rows of ny entries |
| GridCodec.DeallocateGrid | cosmosis/datablock/c_datablock.cc:796-802 | the caller's pointer is NULL afterwards |
| GridCodec.FillRow | cosmosis/datablock/c_datablock.cc:841-855 | the inner loop fills row i with row i of the table in the chosen orientation |
| GridCodec.BuildTable | cosmosis/datablock/c_datablock.cc:825-855 | allocate_2d_double and the nested loops give fresh, distinct rows equal to the unflattened table |
| GridCodec.FetchAxesInto | cosmosis/datablock/c_datablock.cc:812-820 | the axis reads into the caller's pointers: fresh copies on success; both pointers NULL after a failure |
| GridCodec.FetchTableParts | cosmosis/datablock/c_datablock.cc:823-834 | the table and sentinel reads into buffers of its own, equal to the stored ones on success |
| GridCodec.FetchParts | cosmosis/datablock/c_datablock.cc:812-835 | all four reads, with the caller's axis pointers NULL again after any failure |
| GridCodec.DecodeTable | cosmosis/datablock/c_datablock.cc:836-868 | the order check, the length check and the copy loops produce the table the decode describes, or its failure code and no table |
| GridCodec.ReadGrid | cosmosis/datablock/c_datablock.cc:804-868 | the reads and the decode together agree with the corrected get |
| GridCodec.GetDoubleGrid | cosmosis/datablock/c_datablock.cc:804-876 | corrected grid get: on failure all three output pointers are NULL and the sizes are unchanged; on success fresh copies of both axes, *n_x and *n_y set, and a fresh table laid out as the reader asked |
| GridCodec.PutTableAndSentinel | cosmosis/datablock/c_datablock.cc:765-786 | the table copy and put, then the sentinel put, in place have the effect TablePut gives |
| PyText.TakeWord | cosmosis/campaign.py:29 | the longest whitespace-free prefix |
| PyText.Split | cosmosis/campaign.py:29 | str.split(): every piece is a non-empty, whitespace-free word |
| PyText.Join | cosmosis/campaign.py:37 | ' '.join of a single item is that item |
| PyText.TrimLeft | cosmosis/campaign.py:171 | lstrip: a suffix whose dropped prefix is all whitespace and which does not start with whitespace |
| PyText.TrimRight | cosmosis/campaign.py:171 | rstrip: a prefix whose dropped suffix is all whitespace and which does not end with whitespace |
| PyText.StripEnds | cosmosis/campaign.py:171-172 | a stripped string has whitespace at neither end |
| PyText.StripIdempotent | cosmosis/campaign.py:176 | stripping twice is stripping once |
| PyText.StripFixed | cosmosis/campaign.py:171-172 | a string without whitespace at its ends is its own strip |
| PyText.SplitAround | cosmosis/campaign.py:29 | a whitespace character splits the words on its two sides apart |
| PyText.WordSplit | cosmosis/campaign.py:29 | a word splits into itself |
| PyText.SplitJoin | cosmosis/campaign.py:37 | splitting a space-joined list splits each element |
| PyText.SplitJoinWords | cosmosis/campaign.py:29-37 | words joined with spaces split back into the same words |
| PyText.SplitTrimLeft | cosmosis/campaign.py:29 | leading whitespace does not change the words |
| PyText.SplitEmpty | cosmosis/campaign.py:194 | a string has no words exactly when it is all whitespace |
| PyText.SplitStripNonEmpty | cosmosis/campaign.py:194 | a string that starts with a non-whitespace character keeps a word after stripping |
| PyText.SplitAllSpace | cosmosis/campaign.py:280 | a string of whitespace only holds no word |
| PyText.SplitOnce | cosmosis/campaign.py:170 | split(sep, 1) unpacked into two names: None (ValueError) exactly when sep is missing; otherwise the part before the first sep and the part after it |
| PyText.SplitOnceGlue | cosmosis/campaign.py:170 | splitting a + sep + b, with sep not in a, gives back a and b |
| PyText.SplitFirstWord | cosmosis/campaign.py:185 | split(maxsplit=1) unpacked: the first part is a word and the rest starts with a non-whitespace character |
| PyText.SplitFirstWordAgrees | cosmosis/campaign.py:185 | it fails exactly when the full split has fewer than two words, and otherwise agrees with the full split |
| Inifiles.GetOption | cosmosis/campaign.py:28 | params[section, option]: NoSectionError exactly for an unknown section other than DEFAULT; a value exactly when the section or the defaults hold the option |
| Inifiles.SetOption | cosmosis/campaign.py:37 | set: NoSectionError exactly for an unknown section that is not DEFAULT or empty; success keeps the same sections |
| Inifiles.AddSectionTo | cosmosis/campaign.py:182 | add_section: ValueError for DEFAULT and DuplicateSectionError for an existing name; otherwise one new empty section, the rest unchanged |
| Inifiles.RemoveOptionFrom | cosmosis/campaign.py:192 | remove_option: NoSectionError exactly for an unknown section other than DEFAULT or ""; in a named section exactly that option is removed from that section, for DEFAULT or "" exactly that option is removed from the defaults, nothing else changes, and the answer is whether it was there |
| Inifiles.RemoveSectionFrom | cosmosis/campaign.py:199 | remove_section: exactly that section is removed, nothing else changes, and the answer is whether it was there |
| Inifiles.SetThenGet | cosmosis/campaign.py:183 | a value set in an existing section reads back, and every other option reads as before |
| Inifiles.SetDefaultThenGet | cosmosis/campaign.py:183 | a value set in DEFAULT reads back from every section that does not hold the option itself |
| Inifiles.Inifile.constructor | cosmosis/campaign.py:17-18 | a parameter file with the given contents |
| Inifiles.Inifile.HasSection | cosmosis/campaign.py:181 | has_section: a reported section cannot be added again, and any other name but DEFAULT can |
| Inifiles.Inifile.Get | cosmosis/campaign.py:28 | params[section, option]: NoSectionError exactly for an unknown section other than DEFAULT; the section's own value when it has one, else the default; NoOptionError only when the defaults lack the option |
| Inifiles.Inifile.Set | cosmosis/campaign.py:37 | set in place, with the effect SetOption gives |
| Inifiles.Inifile.AddSection | cosmosis/campaign.py:328 | add_section in place, with the effect AddSectionTo gives |
| Inifiles.Inifile.RemoveOption | cosmosis/campaign.py:192 | remove_option in place, with the effect RemoveOptionFrom gives |
| Inifiles.Inifile.RemoveSection | cosmosis/campaign.py:199 | remove_section in place, with the effect RemoveSectionFrom gives |
| Campaign.Chars | cosmosis/campaign.py:129 | iterating over a str gives its characters, one per item |
| Campaign.FirstIndex | cosmosis/campaign.py:33 | list.index: ValueError exactly when x is absent; otherwise the position of x with no x before it |
| Campaign.FirstIndexAt | cosmosis/campaign.py:33 | the first occurrence is the only position holding x with no x before it |
| Campaign.InsertAfter | cosmosis/campaign.py:33-36 | fails exactly when the anchor is absent |
| Campaign.InsertBefore | cosmosis/campaign.py:59-62 | fails exactly when the anchor is absent |
| Campaign.RemoveFirst | cosmosis/campaign.py:108 | list.remove fails exactly when x is absent |
| Campaign.InsertAfterShape | cosmosis/campaign.py:33-36 | the new list keeps every old name and adds exactly the new ones, spliced in right after the first anchor |
| Campaign.InsertBeforeShape | cosmosis/campaign.py:59-62 | the new list keeps every old name and adds exactly the new ones, spliced in right before the first anchor |
| Campaign.RemoveFirstAt | cosmosis/campaign.py:108 | list.remove takes out exactly the first occurrence |
| Campaign.RemoveFirstShape | cosmosis/campaign.py:108 | removing takes out one copy of x, at its first occurrence, and keeps the order of the rest |
| Campaign.RemoveEach | cosmosis/campaign.py:107-108 | removing the names in turn shortens the list by one per name |
| Campaign.RemoveEachMultiset | cosmosis/campaign.py:107-108 | deleting succeeds exactly when the list holds each name at least as often as it is named, and then removes exactly those |
| Campaign.Pipeline | cosmosis/campaign.py:28-29 | reading the module list needs a [pipeline] section and gives words |
| Campaign.WritePipeline | cosmosis/campaign.py:37 | writing an edited list back: ValueError when the edit failed; otherwise only the text of [pipeline] modules changes, to the joined list |
| Campaign.ModulesEditTransitive | cosmosis/campaign.py:84-85 | two edits of the module text in a row are one edit |
| Campaign.After | cosmosis/campaign.py:11-37 | pipeline_after: an unreadable list's exception propagates, any other failure is ValueError, and a success changes only [pipeline] modules |
| Campaign.Before | cosmosis/campaign.py:39-63 | the same for pipeline_before |
| Campaign.Delete | cosmosis/campaign.py:87-109 | the same for pipeline_delete |
| Campaign.Append | cosmosis/campaign.py:111-131 | pipeline_append: an unreadable list's exception propagates; otherwise it succeeds and changes only [pipeline] modules |
| Campaign.Prepend | cosmosis/campaign.py:133-151 | the same for pipeline_prepend |
| Campaign.Replace | cosmosis/campaign.py:65-85 | pipeline_replace: an unreadable list's exception propagates, any other failure is ValueError, and a success changes only [pipeline] modules |
| Campaign.RemoveEachKeepsOrder | cosmosis/campaign.py:107-108 | the removal loop leaves the remaining modules in their original order |
| Campaign.WritePipelineEffect | cosmosis/campaign.py:37 | writing the list back changes only [pipeline] modules, and a list of words reads back unchanged |
| Campaign.AfterEffect | cosmosis/campaign.py:28-37 | pipeline_after fails exactly when the list cannot be read, or with ValueError when the anchor is absent; otherwise the list read back has the new names, in order, after the first anchor |
| Campaign.BeforeEffect | cosmosis/campaign.py:54-63 | the same for pipeline_before, with the names before the first anchor |
| Campaign.DeleteEffect | cosmosis/campaign.py:102-109 | pipeline_delete fails with ValueError exactly when a name is missing more often than it is listed; otherwise the list read back is what removing the first remaining occurrence of each name in turn leaves, which has exactly those names fewer and keeps the relative order of the rest |
| Campaign.AppendPrependEffect | cosmosis/campaign.py:126-151 | pipeline_append puts the new names after the old list, and pipeline_prepend puts them before it, both in the given order |
| Campaign.AppendBareString | cosmosis/campaign.py:129-130 | a bare str handed to pipeline_append becomes one module per character |
| Campaign.AnchorSurvives | cosmosis/campaign.py:84 | after pipeline_after the anchor is still in the list read back |
| Campaign.DeleteOne | cosmosis/campaign.py:85 | deleting a single present name removes its first occurrence |
| Campaign.ReplaceEffect | cosmosis/campaign.py:84-85 | pipeline_replace fails exactly when pipeline_after does |
| Campaign.InsertAfterThenRemove | cosmosis/campaign.py:84-85 | inserting after the first x and then removing the first x swaps x for the new names |
| Campaign.ReplaceSplice | cosmosis/campaign.py:84-85 | pipeline_replace swaps the first occurrence of the original for the new names |
| Campaign.PipelineAfter | cosmosis/campaign.py:28-37 | the insertion loop in place has the effect After gives |
| Campaign.PipelineBefore | cosmosis/campaign.py:54-63 | the insertion loop in place has the effect Before gives |
| Campaign.PipelineDelete | cosmosis/campaign.py:102-109 | the removal loop in place has the effect Delete gives, with the file untouched on ValueError |
| Campaign.PipelineAppend | cosmosis/campaign.py:126-131 | the append loop in place has the effect Append gives |
| Campaign.PipelinePrepend | cosmosis/campaign.py:146-151 | the front-insertion loop in place has the effect Prepend gives |
| Campaign.PipelineReplace | cosmosis/campaign.py:84-85 | pipeline_after then pipeline_delete in place has the effect Replace gives |
| Campaign.ParseUpdate | cosmosis/campaign.py:169-201 | every malformed update raises ValueError; sampler only for a parameter file; assignments need an =, deletions have none and start with "del" |
| Campaign.ParseAssignment | cosmosis/campaign.py:170-180 | an assignment is a set or, in a parameter file only, a sampler choice |
| Campaign.ParseKeys | cosmosis/campaign.py:173-180 | the same, from the stripped keys and value |
| Campaign.ParseDelete | cosmosis/campaign.py:185-199 | a deletion removes an option or a section, or raises ValueError |
| Campaign.ParseDeleteKeys | cosmosis/campaign.py:188-199 | what follows the command removes an option or one section, or raises ValueError |
| Campaign.ApplyUpdate | cosmosis/campaign.py:169-201 | apply_update in place has the effect ApplyUpdateTo gives |
| Campaign.ApplyParsed | cosmosis/campaign.py:176-199 | only sampler=... and del section.option can raise, and then NoSectionError; a set adds its section (unless DEFAULT), sampler=... and del section.option keep the sections, del section removes its section |
| Campaign.ApplyResult | cosmosis/campaign.py:154-201 | a parse error is raised as it is; otherwise the parsed update is carried out |
| Campaign.ApplyUpdateTo | cosmosis/campaign.py:154-201 | apply_update raises only ValueError or NoSectionError; an assignment never removes a section and a deletion never adds one |
| Campaign.SplitAssignment | cosmosis/campaign.py:170-172 | an update with an = parses as its stripped keys and value |
| Campaign.DottedKeys | cosmosis/campaign.py:178-180 | dotted keys name a section and an option, split at the first dot and stripped |
| Campaign.ParseSetRoundTrip | cosmosis/campaign.py:169-183 | section.option=value parses back into its three stripped parts |
| Campaign.ParseSamplerRoundTrip | cosmosis/campaign.py:173-176 | keys that strip to sampler set the sampler in a parameter file and raise ValueError elsewhere |
| Campaign.SamplerOnlyInParams | cosmosis/campaign.py:173-175 | apart from sampler=..., an update parses the same for every kind of file |
| Campaign.SplitDeletion | cosmosis/campaign.py:185-186 | del keys (or delete keys) parses as its keys |
| Campaign.CommandSplit | cosmosis/campaign.py:185 | the one-split of "cmd keys" is the command and the keys |
| Campaign.ParseDeleteOptionRoundTrip | cosmosis/campaign.py:188-192 | del section.option parses into the stripped section and option |
| Campaign.ParseDeleteSectionRoundTrip | cosmosis/campaign.py:193-199 | del section parses into the section name |
| Campaign.DeleteTwoSectionsRefused | cosmosis/campaign.py:194-196 | del a b names two sections and raises ValueError |
| Campaign.SetValueEffect | cosmosis/campaign.py:178-183 | setting never raises; in a named section the value reads back, the section exists and nothing else changes; DEFAULT or an empty name sets the default, and an empty name also leaves an empty section "" |
| Campaign.DeleteOptionEffect | cosmosis/campaign.py:188-192 | del section.option: NoSectionError for an unknown named section; otherwise the file is the old one with exactly that option removed from that section (from the defaults for DEFAULT or ""), so it no longer reads back unless a default supplies it |
| Campaign.DeleteSectionEffect | cosmosis/campaign.py:193-199 | del section never raises; the file is the old one with exactly that section removed, so deleting a missing section changes nothing |
| Campaign.ApplyUpdatesTo | cosmosis/campaign.py:218-222 | a list of updates ends normally or with ValueError, never with another exception |
| Campaign.ApplyUpdates | cosmosis/campaign.py:218-222 | the loop in place has the effect ApplyUpdatesTo gives |
| Campaign.ApplyUpdatesConcat | cosmosis/campaign.py:218-222 | running two lists of updates one after the other is running their concatenation |
| Campaign.ApplyPipelineUpdate | cosmosis/campaign.py:248-260 | the dispatch in place has the effect PipelineUpdateTo gives |
| Campaign.PipelineUpdateTo | cosmosis/campaign.py:225-260 | apply_pipeline_update: IndexError for an empty update and for after, before or replace given alone, ValueError for an unknown action, IndexError only when fewer than two words; a success changes only [pipeline] modules |
| Campaign.ApplyPipelineUpdates | cosmosis/campaign.py:279-280 | the loop in place has the effect PipelineUpdatesTo gives |
| Campaign.PipelineUpdatesTo | cosmosis/campaign.py:263-280 | apply_pipeline_updates leaves the file as it was or changes only [pipeline] modules, and never raises DuplicateSectionError |
| Campaign.PipelineUpdatesConcat | cosmosis/campaign.py:279-280 | two lists of pipeline updates one after the other are their concatenation |
| Campaign.PrependRefused | cosmosis/campaign.py:235-260 | prepend is documented as an action but raises ValueError like an unknown one |
| Campaign.BeforeDollarRefused | cosmosis/campaign.py:42-59 | pipeline_before documents "$" as inserting at the end, but unless a module is literally named "$" the lookup of "$" raises ValueError |
| Campaign.BlankPipelineUpdate | cosmosis/campaign.py:279-280 | a blank update splits into no words, so reading its action (line 248) raises IndexError, the file is left as it was and the later updates are not applied |
| Campaign.PipelineUpdateWords | cosmosis/campaign.py:248-260 | a textual update "action name new..." with word names is dispatched to the helper it names, with the arguments it names |
| Campaign.PathJoin | cosmosis/campaign.py:332 | os.path.join on POSIX: an absolute b is the result; for a relative b the result starts with a, ends with b, and is one character longer than the two exactly when a is non-empty and does not end with /, that character being / |
| Campaign.PathJoinFile | cosmosis/campaign.py:332-333 | joining a relative name: the directory, one separator unless it already ends with one, the name |
| Campaign.EnsureSection | cosmosis/campaign.py:327-330 | creating a section if missing never raises for a name other than DEFAULT |
| Campaign.SetIfPresent | cosmosis/campaign.py:335-339 | setting only in an existing section never raises for a name other than DEFAULT or "" |
| Campaign.SetOutputDir | cosmosis/campaign.py:327-339 | set_output_dir in place has the effect OutputDirSet gives |
| Campaign.EnsureSectionEffect | cosmosis/campaign.py:327-330 | making sure a section exists keeps its options if it was there |
| Campaign.SetIfPresentEffect | cosmosis/campaign.py:335-339 | only that one option of that one section changes, and only when the section exists |
| Campaign.OutputAndTestEffect | cosmosis/campaign.py:327-333 | [output] and [test] exist afterwards and point into the directory, and nothing else changes |
| Campaign.OutputAndTestSet | cosmosis/campaign.py:327-333 | the first half of set_output_dir never raises, keeps the defaults, and leaves exactly the old sections plus [output] and [test] |
| Campaign.SamplerOutputsSet | cosmosis/campaign.py:335-339 | the second half never raises, keeps the defaults and the sections, and changes no section but [multinest] and [polychord] |
| Campaign.OutputDirSet | cosmosis/campaign.py:308-339 | set_output_dir never raises, keeps the defaults, and leaves exactly the old sections plus [output] and [test] |
| Campaign.SamplerOutputsEffect | cosmosis/campaign.py:335-339 | the multinest and polychord sections that exist point into the directory, and nothing else changes |
| Campaign.SetOutputDirEffect | cosmosis/campaign.py:327-339 | set_output_dir never raises, adds only [output] and [test], points the four sections into the directory, and keeps every other section and the defaults |
| Campaign.SetOutputDirPoints | cosmosis/campaign.py:327-339 | afterwards the file points into the directory |
| Campaign.SetHeld | cosmosis/campaign.py:332-339 | setting an option to the value it already holds, directly or only-if-present, leaves the file as it was |
| Campaign.OutputAndTestPoint | cosmosis/campaign.py:327-333 | afterwards [output] filename and [test] save_dir point into the directory |
| Campaign.SamplerOutputsPoint | cosmosis/campaign.py:335-339 | afterwards the multinest and polychord sections, where they exist, point into the directory |
| Campaign.OutputDirFixed | cosmosis/campaign.py:327-339 | a file that already points into the directory is left as it is |
| Campaign.SetOutputDirIdempotent | cosmosis/campaign.py:327-339 | setting the same output directory twice is setting it once |

## Left out

- Memory release is not modelled. This covers the `free` calls, `delete` in `destroy_c_datablock` and the leaks: `z_flat` in the grid put, and `sentinel_value` on the success path of the grid get (the mismatch branch frees it). Allocation failure of `malloc`/`strdup` is an `allocFails` parameter on the string and array gets. In the grid code every allocation is taken to succeed.
- `src/datablock/datablock.hh`, `section.cc` and `entry.cc` are not part of this model. `get_val`, `put_val`, `replace_val` and `view` are the functions `Store.Get`, `Store.Put`, `Store.Replace` and `Store.View`, with the behaviour their callers rely on. `Section::get_size` and `DataBlock::num_values` are taken to answer -1 for an absent name or section. CDatablock.GetScalar, CDatablock.GetScalarDefault and CDatablock.GetType leave `*val` or `*t` unchanged when `get_val` or `get_type` fails. That is an assumption about those functions, whose source is not part of this model; the C interface does not promise what the output holds after a failure.
- Store.DataBlock.NumSections: the C `int` return of `c_datablock_num_sections` is not truncated; the model assumes fewer than 2^31 sections. The same holds for every other `size_t` narrowed to `int`: `*sz = r.size()` in the allocating and preallocated array gets (c_datablock.cc:344, 431), the `get_size` answer of `c_datablock_get_array_length`, and `*n_x`/`*n_y` in the grid get (c_datablock.cc:872-873). Vectors of 2^31 or more elements are not covered.
- The debug `printf` in the grid get is not modelled: output I/O.
- Doubles are opaque 64-bit patterns and no arithmetic is done on them.
- The `reinterpret_cast` from `std::complex<double>` to `double _Complex` is not modelled: complex values are copied as their two components.
- The complex-array entry points are not modelled, because they are commented out in the source.
- The 512-byte `snprintf` buffers for the sentinel key and value, and the 512-character `strncmp`, are not modelled. The sentinel is the plain concatenation, compared in full, so names long enough to be truncated are not covered.
- GridCodec.PutDoubleGrid: `n_x * n_y` is not wrapped to a 32-bit `int`. When both axis puts succeed (c_datablock.cc:759-762) and both sizes are positive, the C code reads `z` (c_datablock.cc:770), so its requires excludes exactly a NULL or too-short `z` in that case (a crash in C). Inputs where an earlier put returns a status keep their status and may pass any `z`.
- GridCodec.AllocateGrid: takes `nat` sizes. `allocate_2d_double` with a negative size is not modelled.
- CDatablock.GetIntArrayPreallocated and CDatablock.GetDoubleArrayPreallocated: model the corrected status (exceptions caught); the as-written escape is `PreallocatedExitAsWritten`. `maxsize` is compared after `static_cast<size_t>`, so a negative one copies the whole vector (`NegativeMaxsizeUnchecked`). They require the buffer to hold every element the call copies, because writing past a C buffer is undefined behaviour. That requirement applies only to calls with every pointer non-NULL whose vector is found within `maxsize`. A NULL handle, section, name, `val` or `sz` returns its code first (c_datablock.cc:423-427, 449-453) and may pass any buffer.
- CDatablock.GetSectionName: for i >= 0 takes a non-NULL handle, because the source dereferences the handle without checking it.
- CDatablock.GetType: takes a non-NULL `t`, because the source passes `*t` to `get_type` without checking the pointer (c_datablock.cc:131).
- A `const char*` argument is modelled by the characters before its first NUL (`CDatablock.CText`). Reading an argument that is not NUL-terminated is not modelled.
- GridCodec.DeallocateGrid: models `deallocate_2d_double` as a public function on its own. The grid get's failure paths (c_datablock.cc:835, 865) call it on a local table that the caller never sees, so the model's grid get leaves `*z` NULL there without it; the freeing itself falls under memory release above.
- Aliasing between output pointers is not modelled. The grid get requires its output cells to be distinct.
- `c_datablock_delete_section`, `c_datablock_get_value_name` and `c_datablock_get_value_name_by_section_index` are not modelled. They rely on `DataBlock::delete_section` and `value_name`, whose source is not part of this model.
- Inifiles.Inifile: does not carry configparser's invariant that `DEFAULT` is never a stored section as a class invariant. No modelled operation adds it (`AddSectionTo` refuses the name, and a `section.option=value` update on DEFAULT writes the defaults), but an `Inifile` built from contents that hold a `DEFAULT` key is not excluded.
- `configparser` internals are not modelled: option-name lowercasing (`optionxform`), interpolation and the parsing of files. Option names are compared exactly as given.
- Campaign.ApplyUpdate: parses the whole update before changing the file. This is equivalent to the source, where every exception is raised before the first change. The `IndexError` of `keys[0]` on a `del` with no section name is proved unreachable, because the text after `del` holds a word.
- Campaign I/O and orchestration are not modelled: YAML loading, `temporary_environment`, run status, MPI runs and printing. `cosmosis/samplers/maxlike/maxlike_sampler.py` (numerical optimisation) and `src/runtime/output/test_output.py` (file I/O) are not modelled either.
- PyText.Join: states only the one-item case. Its partner is `PyText.SplitJoinWords`, the split/join round trip.
- CDatablock.PutIntArray, CDatablock.PutDoubleArray, CDatablock.ReplaceIntArray and CDatablock.ReplaceDoubleArray: require a non-negative `sz` to be at most the buffer's length, because reading past a C buffer is undefined behaviour. This applies only when the handle, section, name and `val` are all non-NULL, because only then does the C code build the vector from the buffer (c_datablock.cc:581, 598, 708, 725). A call that returns a NULL or SIZE_NEGATIVE status may pass any buffer. The grid put (GridCodec.PutAxes, GridCodec.PutDoubleGrid) requires the same of `x` only past those checks, and of `y` only once the x put has succeeded.
- Campaign.ApplyUpdates: `except:` in `apply_updates` turns every exception into ValueError; the model keeps only the resulting ValueError, not the message.

## Findings

| source | as written | input that shows it | evidently intended | confidence | as-written member | corrected member |
|---|---|---|---|---|---|---|
| cosmosis/datablock/c_datablock.cc:72 | `c_datablock_has_value` returns the `DATABLOCK_STATUS` of `has_val` as a `_Bool`, so DBS_SUCCESS (0) becomes false | any block whose section "s" holds "n": has_value(s, "s", "n") is false, and for a missing "n" it is true | true exactly when the value exists | high, not executed | CDatablock.HasValueAsWritten, CDatablock.HasValueInverted | CDatablock.HasValue |
| cosmosis/datablock/c_datablock.cc:430 | the preallocated array gets call `view` outside any `try`, so `BadDataBlockAccess`, `BadSectionAccess` and `BadEntry` leave an `extern "C"` function | a missing section, name or a wrong type, e.g. an empty block | return SECTION_NOT_FOUND, NAME_NOT_FOUND or WRONG_VALUE_TYPE as the allocating array gets do | high, not executed | CDatablock.PreallocatedExitAsWritten | CDatablock.PreallocatedStatus, CDatablock.PreallocatedCorrection |
| cosmosis/datablock/c_datablock.cc:841-855 | the grid get never checks that the flat table holds n_x*n_y entries before reading `z_flat[i*ny+j]` or `z_flat[j*nx+i]` | section "grid" with x = [0, 0], y = [0, 0], z = [0] and the sentinel "x_cosmosis_order_y": the read takes position 3 of a one-entry vector | refuse a table shorter than n_x*n_y (reported here as SIZE_INSUFFICIENT) | high, not executed | GridCodec.GridDecodeAsWritten, GridCodec.ShortTableReadsPast | GridCodec.GridDecode, GridCodec.GridDecodeCorrection |

Other behaviour of the source that looks unintended is modelled as written:

- `apply_pipeline_update` documents `prepend` but refuses it (`Campaign.PrependRefused`).
- `pipeline_before` documents `"$"` as "insert at the end" but looks it up like a module name, raising ValueError (`Campaign.BeforeDollarRefused`).
- `pipeline_append` and `pipeline_prepend` iterate over a bare `str` character by character (`Campaign.AppendBareString`).
- An update `.option=value` with an empty section name sets a default and also adds an empty section `""` (`Campaign.SetValueEffect`).
- A blank string in `apply_pipeline_updates` raises `IndexError` (`Campaign.BlankPipelineUpdate`).
- Axis names that contain `_cosmosis_order_` can make the two orders indistinguishable (`GridCodec.SentinelAmbiguous`).
