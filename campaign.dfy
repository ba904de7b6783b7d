/**
 * The run-configuration helpers of cosmosis/campaign.py: editing the
 * whitespace-separated module list `[pipeline] modules` of a parameter
 * file, and applying `section.option=value` / `del ...` updates.
 *
 * Each helper is a method that changes the parameter file in place, proved
 * against a function on the file's contents (`After`, `Delete`,
 * `ApplyUpdateTo`, ...); the lemmas then say what those functions do to the
 * module list and to the sections.
 */
module Campaign {
  import opened Wrappers
  import opened PyText
  import opened Inifiles

  const PipelineSection := "pipeline"
  const ModulesOption := "modules"

  /** The `modules` argument of the pipeline helpers: a single name (a Python str) or a list of names. */
  datatype Modules = Name(name: string) | Names(names: seq<string>)

  /** The list a helper that checks `isinstance(modules, str)` works on. */
  function AsList(m: Modules): seq<string>
  {
    match m
    case Name(s) => [s]
    case Names(ns) => ns
  }

  /** What `for m in modules` visits without that check: for a bare str, its characters, each a one-letter name. */
  function Iterated(m: Modules): seq<string>
  {
    match m
    case Name(s) => Chars(s)
    case Names(ns) => ns
  }

  /** The characters of a string as one-letter strings. */
  function Chars(s: string): (r: seq<string>)
    ensures |r| == |s| && forall i :: 0 <= i < |s| ==> r[i] == [s[i]]
  {
    seq(|s|, i requires 0 <= i < |s| => [s[i]])
  }

  /** Every element is a name `str.split()` keeps whole. */
  predicate Words(q: seq<string>) {
    forall k :: 0 <= k < |q| ==> IsWord(q[k])
  }

  // ---------------------------------------------------------------------------
  // The list operations: list.index, list.insert, list.remove
  // ---------------------------------------------------------------------------

  /** `p.index(x)`: the position of the first occurrence; `None` where Python raises ValueError. */
  function FirstIndex(p: seq<string>, x: string): (r: Option<nat>)
    ensures r.None? <==> x !in p
    ensures r.Some? ==> r.value < |p| && p[r.value] == x && x !in p[..r.value]
  {
    if p == [] then None
    else if p[0] == x then Some(0)
    else
      match FirstIndex(p[1..], x)
      case None => None
      case Some(i) =>
        assert p[..i + 1] == [p[0]] + p[1..][..i];
        Some(i + 1)
  }

  /** The first occurrence is the only position holding x with no x before it. */
  lemma FirstIndexAt(p: seq<string>, x: string, i: nat)
    requires i < |p| && p[i] == x && x !in p[..i]
    ensures FirstIndex(p, x) == Some(i)
  {
  }

  /** The new list of `pipeline_after`: `mods` placed, in order, right after the first `anchor`. */
  function InsertAfter(p: seq<string>, anchor: string, mods: seq<string>): (r: Option<seq<string>>)
    ensures r.None? <==> anchor !in p
  {
    match FirstIndex(p, anchor)
    case None => None
    case Some(i) => Some(p[..i + 1] + mods + p[i + 1..])
  }

  /** The new list of `pipeline_before`: `mods` placed, in order, right before the first `anchor`. */
  function InsertBefore(p: seq<string>, anchor: string, mods: seq<string>): (r: Option<seq<string>>)
    ensures r.None? <==> anchor !in p
  {
    match FirstIndex(p, anchor)
    case None => None
    case Some(i) => Some(p[..i] + mods + p[i..])
  }

  /** `p.remove(x)`: the list without the first occurrence of x; `None` where Python raises ValueError. */
  function RemoveFirst(p: seq<string>, x: string): (r: Option<seq<string>>)
    ensures r.None? <==> x !in p
  {
    match FirstIndex(p, x)
    case None => None
    case Some(i) => Some(p[..i] + p[i + 1..])
  }

  /** Inserting after the anchor keeps every old name and adds exactly the new ones, spliced in right after the first anchor. */
  lemma InsertAfterShape(p: seq<string>, anchor: string, mods: seq<string>)
    requires anchor in p
    ensures var r := InsertAfter(p, anchor, mods).value;
      && multiset(r) == multiset(p) + multiset(mods)
      && exists i :: 0 <= i < |p| && p[i] == anchor && anchor !in p[..i] && r == p[..i + 1] + mods + p[i + 1..]
  {
    var i := FirstIndex(p, anchor).value;
    assert p == p[..i + 1] + p[i + 1..];
  }

  /** Inserting before the anchor keeps every old name and adds exactly the new ones, spliced in right before the first anchor. */
  lemma InsertBeforeShape(p: seq<string>, anchor: string, mods: seq<string>)
    requires anchor in p
    ensures var r := InsertBefore(p, anchor, mods).value;
      && multiset(r) == multiset(p) + multiset(mods)
      && exists i :: 0 <= i < |p| && p[i] == anchor && anchor !in p[..i] && r == p[..i] + mods + p[i..]
  {
    var i := FirstIndex(p, anchor).value;
    assert p == p[..i] + p[i..];
  }

  /** Removing takes out exactly one copy of x, at its first occurrence, and keeps the order of the rest. */
  lemma RemoveFirstShape(p: seq<string>, x: string)
    requires x in p
    ensures var r := RemoveFirst(p, x).value;
      && multiset(r) == multiset(p) - multiset{x}
      && exists i :: 0 <= i < |p| && p[i] == x && x !in p[..i] && r == p[..i] + p[i + 1..]
  {
    var i := FirstIndex(p, x).value;
    assert p == p[..i] + [x] + p[i + 1..];
  }

  /** `q` is `p` with some entries left out and the rest in their original order. */
  predicate IsSubseq(q: seq<string>, p: seq<string>)
    decreases |p|
  {
    q == [] || (p != [] && ((q[0] == p[0] && IsSubseq(q[1..], p[1..])) || IsSubseq(q, p[1..])))
  }

  lemma {:induction false} SubseqReflexive(p: seq<string>)
    ensures IsSubseq(p, p)
    decreases |p|
  {
    if p != [] {
      SubseqReflexive(p[1..]);
    }
  }

  /** Leaving out the entry at one position keeps the rest in order. */
  lemma {:induction false} SubseqDropOne(p: seq<string>, i: nat)
    requires i < |p|
    ensures IsSubseq(p[..i] + p[i + 1..], p)
    decreases i
  {
    var r := p[..i] + p[i + 1..];
    if i == 0 {
      assert r == p[1..];
      SubseqReflexive(p[1..]);
    } else {
      SubseqDropOne(p[1..], i - 1);
      assert r[0] == p[0];
      assert r[1..] == p[1..][..i - 1] + p[1..][i..];
    }
  }

  lemma {:induction false} SubseqTransitive(a: seq<string>, b: seq<string>, c: seq<string>)
    requires IsSubseq(a, b) && IsSubseq(b, c)
    ensures IsSubseq(a, c)
    decreases |c|
  {
    if a != [] {
      if IsSubseq(b, c[1..]) {
        SubseqTransitive(a, b, c[1..]);
      } else if a[0] == b[0] && IsSubseq(a[1..], b[1..]) {
        SubseqTransitive(a[1..], b[1..], c[1..]);
      } else {
        SubseqTransitive(a, b[1..], c[1..]);
      }
    }
  }

  /** The loop of `pipeline_delete`: remove the first occurrence of each name in turn; `None` once one is missing. */
  function RemoveEach(p: seq<string>, xs: seq<string>): (r: Option<seq<string>>)
    ensures r.Some? ==> |r.value| == |p| - |xs|
  {
    if xs == [] then Some(p)
    else
      match RemoveFirst(p, xs[0])
      case None => None
      case Some(q) => RemoveEach(q, xs[1..])
  }

  /** Deleting a list of names succeeds exactly when the pipeline holds each of them at least as often as the list names it, and then removes exactly those. */
  lemma {:induction false} RemoveEachMultiset(p: seq<string>, xs: seq<string>)
    ensures RemoveEach(p, xs).Some? <==> multiset(xs) <= multiset(p)
    ensures RemoveEach(p, xs).Some? ==> multiset(RemoveEach(p, xs).value) == multiset(p) - multiset(xs)
  {
    if xs != [] {
      var x := xs[0];
      assert xs == [x] + xs[1..];
      assert multiset(xs) == multiset{x} + multiset(xs[1..]);
      match RemoveFirst(p, x)
      case None =>
        assert multiset(p)[x] == 0;
      case Some(q) =>
        RemoveEachMultiset(q, xs[1..]);
        RemoveFirstShape(p, x);
        assert multiset(q) == multiset(p) - multiset{x};
        assert multiset(xs[1..]) <= multiset(q) <==> multiset(xs) <= multiset(p) by {
          assert x in multiset(p);
        }
    }
  }

  /** Deleting names leaves the remaining modules in their original order. */
  lemma {:induction false} RemoveEachKeepsOrder(p: seq<string>, xs: seq<string>)
    ensures RemoveEach(p, xs).Some? ==> IsSubseq(RemoveEach(p, xs).value, p)
    decreases |xs|
  {
    if xs == [] {
      SubseqReflexive(p);
    } else if RemoveFirst(p, xs[0]).Some? {
      var q := RemoveFirst(p, xs[0]).value;
      RemoveFirstShape(p, xs[0]);
      var i :| 0 <= i < |p| && p[i] == xs[0] && xs[0] !in p[..i] && q == p[..i] + p[i + 1..];
      SubseqDropOne(p, i);
      RemoveEachKeepsOrder(q, xs[1..]);
      if RemoveEach(q, xs[1..]).Some? {
        SubseqTransitive(RemoveEach(q, xs[1..]).value, q, p);
      }
    }
  }

  // ---------------------------------------------------------------------------
  // The pipeline helpers on the contents of the parameter file
  // ---------------------------------------------------------------------------

  /** `params['pipeline', 'modules'].split()`. */
  function Pipeline(ini: Ini): (r: Result<seq<string>, Exc>)
    ensures r.Ok? ==> PipelineSection in ini.sections && Words(r.value)
  {
    match GetOption(ini, PipelineSection, ModulesOption)
    case Err(e) => Err(e)
    case Ok(text) => Ok(Split(text))
  }

  /** The file with the text of `[pipeline] modules` set to `text` and nothing else changed. */
  function WithModules(ini: Ini, text: string): Ini
    requires PipelineSection in ini.sections
  {
    ini.(sections := ini.sections[PipelineSection := ini.sections[PipelineSection][ModulesOption := text]])
  }

  /** `after` differs from `before` at most in the text of `[pipeline] modules`, which it holds. */
  predicate ModulesEdit(before: Ini, after: Ini) {
    && PipelineSection in before.sections && PipelineSection in after.sections
    && ModulesOption in after.sections[PipelineSection]
    && after == WithModules(before, after.sections[PipelineSection][ModulesOption])
  }

  /** Two edits of the module text in a row are one edit. */
  lemma ModulesEditTransitive(a: Ini, b: Ini, c: Ini)
    requires ModulesEdit(a, b) && ModulesEdit(b, c)
    ensures ModulesEdit(a, c)
  {
    var tb, t := b.sections[PipelineSection][ModulesOption], c.sections[PipelineSection][ModulesOption];
    var opts := a.sections[PipelineSection];
    assert b.sections[PipelineSection] == opts[ModulesOption := tb];
    assert opts[ModulesOption := tb][ModulesOption := t] == opts[ModulesOption := t];
    assert c.sections == a.sections[PipelineSection := opts[ModulesOption := t]];
  }

  /** `params.set('pipeline', 'modules', ' '.join(q))` once the list edit has succeeded; ValueError where it failed. */
  function WritePipeline(ini: Ini, edited: Option<seq<string>>): (r: Result<Ini, Exc>)
    ensures edited.None? ==> r == Err(ValueError)
    ensures edited.Some? ==> (r.Ok? <==> PipelineSection in ini.sections)
    ensures r.Ok? ==> ModulesEdit(ini, r.value) && r.value.sections[PipelineSection][ModulesOption] == Join(edited.value)
    ensures r.Err? ==> r.error == ValueError || r.error == NoSectionError
  {
    match edited
    case None => Err(ValueError)
    case Some(q) => SetOption(ini, PipelineSection, ModulesOption, Join(q))
  }

  /** pipeline_after. */
  function After(ini: Ini, anchor: string, modules: Modules): (r: Result<Ini, Exc>)
    ensures Pipeline(ini).Err? ==> r == Err(Pipeline(ini).error)
    ensures r.Ok? ==> ModulesEdit(ini, r.value)
    ensures Pipeline(ini).Ok? && r.Err? ==> r.error == ValueError
  {
    match Pipeline(ini)
    case Err(e) => Err(e)
    case Ok(p) => WritePipeline(ini, InsertAfter(p, anchor, AsList(modules)))
  }

  /** pipeline_before. */
  function Before(ini: Ini, anchor: string, modules: Modules): (r: Result<Ini, Exc>)
    ensures Pipeline(ini).Err? ==> r == Err(Pipeline(ini).error)
    ensures r.Ok? ==> ModulesEdit(ini, r.value)
    ensures Pipeline(ini).Ok? && r.Err? ==> r.error == ValueError
  {
    match Pipeline(ini)
    case Err(e) => Err(e)
    case Ok(p) => WritePipeline(ini, InsertBefore(p, anchor, AsList(modules)))
  }

  /** pipeline_delete. */
  function Delete(ini: Ini, modules: Modules): (r: Result<Ini, Exc>)
    ensures Pipeline(ini).Err? ==> r == Err(Pipeline(ini).error)
    ensures r.Ok? ==> ModulesEdit(ini, r.value)
    ensures Pipeline(ini).Ok? && r.Err? ==> r.error == ValueError
  {
    match Pipeline(ini)
    case Err(e) => Err(e)
    case Ok(p) => WritePipeline(ini, RemoveEach(p, AsList(modules)))
  }

  /** pipeline_append: no `isinstance` check, so a bare str adds its characters. */
  function Append(ini: Ini, modules: Modules): (r: Result<Ini, Exc>)
    ensures Pipeline(ini).Err? ==> r == Err(Pipeline(ini).error)
    ensures r.Ok? ==> ModulesEdit(ini, r.value)
    ensures Pipeline(ini).Ok? ==> r.Ok?
  {
    match Pipeline(ini)
    case Err(e) => Err(e)
    case Ok(p) => WritePipeline(ini, Some(p + Iterated(modules)))
  }

  /** pipeline_prepend: no `isinstance` check, so a bare str adds its characters. */
  function Prepend(ini: Ini, modules: Modules): (r: Result<Ini, Exc>)
    ensures Pipeline(ini).Err? ==> r == Err(Pipeline(ini).error)
    ensures r.Ok? ==> ModulesEdit(ini, r.value)
    ensures Pipeline(ini).Ok? ==> r.Ok?
  {
    match Pipeline(ini)
    case Err(e) => Err(e)
    case Ok(p) => WritePipeline(ini, Some(Iterated(modules) + p))
  }

  /** pipeline_replace: pipeline_after, then pipeline_delete of the original name on the re-read list. */
  function Replace(ini: Ini, original: string, modules: Modules): (r: Result<Ini, Exc>)
    ensures Pipeline(ini).Err? ==> r == Err(Pipeline(ini).error)
    ensures r.Ok? ==> ModulesEdit(ini, r.value)
    ensures Pipeline(ini).Ok? && r.Err? ==> r.error == ValueError
  {
    match After(ini, original, modules)
    case Err(e) => Err(e)
    case Ok(next) =>
      var r := Delete(next, Names([original]));
      if r.Ok? then ModulesEditTransitive(ini, next, r.value); r else r
  }

  /** Writing an edited list back changes only the `modules` option of `[pipeline]`, and a list of words reads back unchanged. */
  lemma WritePipelineEffect(ini: Ini, q: seq<string>)
    requires Pipeline(ini).Ok?
    ensures var r := WritePipeline(ini, Some(q));
      && r.Ok?
      && r.value.defaults == ini.defaults
      && r.value.sections == ini.sections[PipelineSection := ini.sections[PipelineSection][ModulesOption := Join(q)]]
      && (Words(q) ==> Pipeline(r.value) == Ok(q))
  {
    if Words(q) {
      SplitJoinWords(q);
    }
  }

  /** Splicing words into a list of words gives words. */
  lemma WordsSplice(a: seq<string>, b: seq<string>, c: seq<string>)
    requires Words(a) && Words(b) && Words(c)
    ensures Words(a + b + c)
  {
  }

  /**
   * pipeline_after fails exactly when the module list cannot be read or
   * does not hold the anchor (ValueError); otherwise the list read back is
   * the old one with the new names after the first anchor.
   */
  lemma AfterEffect(ini: Ini, anchor: string, modules: Modules)
    ensures Pipeline(ini).Err? ==> After(ini, anchor, modules) == Err(Pipeline(ini).error)
    ensures Pipeline(ini).Ok? && anchor !in Pipeline(ini).value ==> After(ini, anchor, modules) == Err(ValueError)
    ensures Pipeline(ini).Ok? && anchor in Pipeline(ini).value && Words(AsList(modules)) ==>
      After(ini, anchor, modules).Ok? &&
      Pipeline(After(ini, anchor, modules).value) == Ok(InsertAfter(Pipeline(ini).value, anchor, AsList(modules)).value)
  {
    if Pipeline(ini).Ok? && anchor in Pipeline(ini).value {
      var p := Pipeline(ini).value;
      var i := FirstIndex(p, anchor).value;
      if Words(AsList(modules)) {
        WordsSplice(p[..i + 1], AsList(modules), p[i + 1..]);
      }
      WritePipelineEffect(ini, InsertAfter(p, anchor, AsList(modules)).value);
    }
  }

  /** pipeline_before: as pipeline_after, with the new names before the first anchor. */
  lemma BeforeEffect(ini: Ini, anchor: string, modules: Modules)
    ensures Pipeline(ini).Err? ==> Before(ini, anchor, modules) == Err(Pipeline(ini).error)
    ensures Pipeline(ini).Ok? && anchor !in Pipeline(ini).value ==> Before(ini, anchor, modules) == Err(ValueError)
    ensures Pipeline(ini).Ok? && anchor in Pipeline(ini).value && Words(AsList(modules)) ==>
      Before(ini, anchor, modules).Ok? &&
      Pipeline(Before(ini, anchor, modules).value) == Ok(InsertBefore(Pipeline(ini).value, anchor, AsList(modules)).value)
  {
    if Pipeline(ini).Ok? && anchor in Pipeline(ini).value {
      var p := Pipeline(ini).value;
      var i := FirstIndex(p, anchor).value;
      if Words(AsList(modules)) {
        WordsSplice(p[..i], AsList(modules), p[i..]);
      }
      WritePipelineEffect(ini, InsertBefore(p, anchor, AsList(modules)).value);
    }
  }

  /** pipeline_delete fails with ValueError exactly when some name is missing more often than it is listed; otherwise the list read back has exactly those names fewer, the rest in their old order. */
  lemma DeleteEffect(ini: Ini, modules: Modules)
    ensures Pipeline(ini).Err? ==> Delete(ini, modules) == Err(Pipeline(ini).error)
    ensures Pipeline(ini).Ok? ==>
      && (Delete(ini, modules).Err? <==> !(multiset(AsList(modules)) <= multiset(Pipeline(ini).value)))
      && (Delete(ini, modules).Err? ==> Delete(ini, modules).error == ValueError)
      && (Delete(ini, modules).Ok? ==> exists q :: Pipeline(Delete(ini, modules).value) == Ok(q)
                                                && multiset(q) == multiset(Pipeline(ini).value) - multiset(AsList(modules))
                                                && IsSubseq(q, Pipeline(ini).value))
      && (Delete(ini, modules).Ok? ==>
            && RemoveEach(Pipeline(ini).value, AsList(modules)).Some?
            && Pipeline(Delete(ini, modules).value) == Ok(RemoveEach(Pipeline(ini).value, AsList(modules)).value))
  {
    if Pipeline(ini).Ok? {
      var p := Pipeline(ini).value;
      RemoveEachMultiset(p, AsList(modules));
      RemoveEachKeepsOrder(p, AsList(modules));
      var r := RemoveEach(p, AsList(modules));
      if r.Some? {
        assert Words(r.value) by {
          forall k | 0 <= k < |r.value| ensures IsWord(r.value[k]) {
            assert r.value[k] in multiset(p);
          }
        }
        WritePipelineEffect(ini, r.value);
      }
    }
  }

  /** pipeline_append and pipeline_prepend keep the given order: the new names end up after, or before, the old list. */
  lemma AppendPrependEffect(ini: Ini, modules: Modules)
    requires Pipeline(ini).Ok? && Words(Iterated(modules))
    ensures Append(ini, modules).Ok? && Pipeline(Append(ini, modules).value) == Ok(Pipeline(ini).value + Iterated(modules))
    ensures Prepend(ini, modules).Ok? && Pipeline(Prepend(ini, modules).value) == Ok(Iterated(modules) + Pipeline(ini).value)
  {
    var p := Pipeline(ini).value;
    WordsSplice(p, Iterated(modules), []);
    assert p + Iterated(modules) + [] == p + Iterated(modules);
    WritePipelineEffect(ini, p + Iterated(modules));
    WordsSplice(Iterated(modules), p, []);
    assert Iterated(modules) + p + [] == Iterated(modules) + p;
    WritePipelineEffect(ini, Iterated(modules) + p);
  }

  /** A bare str handed to pipeline_append becomes one module per character. */
  lemma AppendBareString(ini: Ini, name: string)
    requires Pipeline(ini).Ok? && forall i :: 0 <= i < |name| ==> !IsSpace(name[i])
    ensures Append(ini, Name(name)).Ok?
    ensures Pipeline(Append(ini, Name(name)).value) == Ok(Pipeline(ini).value + Chars(name))
  {
    assert Words(Chars(name));
    AppendPrependEffect(ini, Name(name));
  }

  /** An element that is a word survives splitting the space-joined list. */
  lemma {:induction false} WordInSplitAll(parts: seq<string>, k: nat)
    requires k < |parts| && IsWord(parts[k])
    ensures parts[k] in SplitAll(parts)
  {
    if k == 0 {
      WordSplit(parts[0]);
    } else {
      WordInSplitAll(parts[1..], k - 1);
    }
  }

  /** After pipeline_after, the anchor is still in the module list read back, whatever names were inserted. */
  lemma AnchorSurvives(ini: Ini, anchor: string, modules: Modules)
    requires After(ini, anchor, modules).Ok?
    ensures Pipeline(After(ini, anchor, modules).value).Ok?
    ensures anchor in Pipeline(After(ini, anchor, modules).value).value
  {
    var p := Pipeline(ini).value;
    var i := FirstIndex(p, anchor).value;
    var q := p[..i + 1] + AsList(modules) + p[i + 1..];
    assert InsertAfter(p, anchor, AsList(modules)) == Some(q);
    WritePipelineEffect(ini, q);
    SplitJoin(q);
    assert q[i] == p[i];
    WordInSplitAll(q, i);
  }

  /** Deleting one name that is in the list succeeds and removes its first occurrence. */
  lemma DeleteOne(ini: Ini, x: string)
    requires Pipeline(ini).Ok? && x in Pipeline(ini).value
    ensures Delete(ini, Names([x])).Ok?
    ensures Pipeline(Delete(ini, Names([x])).value) == Ok(RemoveFirst(Pipeline(ini).value, x).value)
  {
    var p := Pipeline(ini).value;
    var q := RemoveFirst(p, x).value;
    assert RemoveEach(p, [x]) == Some(q);
    assert Words(q) by {
      forall k | 0 <= k < |q| ensures IsWord(q[k]) {
        assert q[k] in multiset(p);
      }
    }
    WritePipelineEffect(ini, q);
  }

  /**
   * pipeline_replace fails exactly when pipeline_after does: the original
   * name is still in the list when it is re-read, so the delete cannot fail.
   */
  lemma ReplaceEffect(ini: Ini, original: string, modules: Modules)
    ensures Replace(ini, original, modules).Err? <==> After(ini, original, modules).Err?
  {
    var after := After(ini, original, modules);
    if after.Ok? {
      AnchorSurvives(ini, original, modules);
      DeleteOne(after.value, original);
    }
  }

  /** Removing the first x from a list whose first x is at i cuts out position i. */
  lemma RemoveFirstAt(q: seq<string>, x: string, i: nat)
    requires i < |q| && q[i] == x && x !in q[..i]
    ensures RemoveFirst(q, x) == Some(q[..i] + q[i + 1..])
  {
    FirstIndexAt(q, x, i);
  }

  /** On the list: inserting after the first x (at i) and then removing the first x swaps x for the inserted names. */
  lemma InsertAfterThenRemove(p: seq<string>, x: string, mods: seq<string>, i: nat)
    requires i < |p| && p[i] == x && x !in p[..i]
    ensures InsertAfter(p, x, mods).Some?
    ensures RemoveFirst(InsertAfter(p, x, mods).value, x) == Some(p[..i] + mods + p[i + 1..])
  {
    FirstIndexAt(p, x, i);
    var q := p[..i + 1] + mods + p[i + 1..];
    assert InsertAfter(p, x, mods).value == q;
    assert q[..i] == p[..i];
    assert q[i] == x;
    RemoveFirstAt(q, x, i);
    var r := q[..i] + q[i + 1..];
    assert q[i + 1..] == mods + p[i + 1..];
    assert r == p[..i] + mods + p[i + 1..];
  }

  /** With names that are words, pipeline_replace swaps the first occurrence of the original for the new names. */
  lemma ReplaceSplice(ini: Ini, original: string, modules: Modules)
    requires Pipeline(ini).Ok? && original in Pipeline(ini).value && Words(AsList(modules))
    ensures var p := Pipeline(ini).value;
      var i := FirstIndex(p, original).value;
      Replace(ini, original, modules).Ok? &&
      Pipeline(Replace(ini, original, modules).value) == Ok(p[..i] + AsList(modules) + p[i + 1..])
  {
    var p := Pipeline(ini).value;
    AfterEffect(ini, original, modules);
    var after := After(ini, original, modules).value;
    assert Pipeline(after) == Ok(InsertAfter(p, original, AsList(modules)).value);
    FirstIndexAt(p, original, FirstIndex(p, original).value);
    InsertAfterThenRemove(p, original, AsList(modules), FirstIndex(p, original).value);
    DeleteOne(after, original);
  }

  // ---------------------------------------------------------------------------
  // The pipeline helpers as they run: the list is edited in place in a loop
  // ---------------------------------------------------------------------------

  /** One step of the insertion loops: inserting `mods[k]` at the seam in front of `mods[k+1..]` gives `mods[k..]` there. */
  lemma SpliceStep(a: seq<string>, mods: seq<string>, k: nat, b: seq<string>)
    requires k < |mods|
    ensures var s := a + mods[k + 1..] + b;
      s[..|a|] + [mods[k]] + s[|a|..] == a + mods[k..] + b
  {
    var s := a + mods[k + 1..] + b;
    assert s[..|a|] == a;
    assert s[|a|..] == mods[k + 1..] + b;
    assert mods[k..] == [mods[k]] + mods[k + 1..];
  }

  /** pipeline_after: read and split the list, insert each new name at i+1 from the last to the first, write the list back. */
  method PipelineAfter(params: Inifile, anchor: string, modules: Modules) returns (out: Outcome)
    modifies params
    ensures Performs(out, old(params.State()), params.State(), After(old(params.State()), anchor, modules))
  {
    ghost var ini0 := params.State();
    var text := params.Get(PipelineSection, ModulesOption);
    if text.Err? {
      assert After(ini0, anchor, modules) == Err(text.error);
      return Raised(text.error);
    }
    var pipeline := Split(text.value);
    var mods := AsList(modules);
    var found := FirstIndex(pipeline, anchor);
    if found.None? {
      assert Pipeline(ini0) == Ok(pipeline);
      assert After(ini0, anchor, modules) == Err(ValueError);
      return Raised(ValueError);
    }
    var i := found.value;
    ghost var p0 := pipeline;
    var k := |mods|;
    while k > 0
      invariant 0 <= k <= |mods|
      invariant params.State() == ini0
      invariant pipeline == p0[..i + 1] + mods[k..] + p0[i + 1..]
    {
      k := k - 1;
      SpliceStep(p0[..i + 1], mods, k, p0[i + 1..]);
      pipeline := pipeline[..i + 1] + [mods[k]] + pipeline[i + 1..];
    }
    assert mods[0..] == mods;
    assert Pipeline(ini0) == Ok(p0);
    assert InsertAfter(p0, anchor, mods) == Some(pipeline);
    assert After(ini0, anchor, modules) == SetOption(ini0, PipelineSection, ModulesOption, Join(pipeline));
    out := params.Set(PipelineSection, ModulesOption, Join(pipeline));
  }

  /** pipeline_before: as pipeline_after, inserting at i. */
  method PipelineBefore(params: Inifile, anchor: string, modules: Modules) returns (out: Outcome)
    modifies params
    ensures Performs(out, old(params.State()), params.State(), Before(old(params.State()), anchor, modules))
  {
    ghost var ini0 := params.State();
    var mods := AsList(modules);
    var text := params.Get(PipelineSection, ModulesOption);
    if text.Err? {
      assert Before(ini0, anchor, modules) == Err(text.error);
      return Raised(text.error);
    }
    var pipeline := Split(text.value);
    var found := FirstIndex(pipeline, anchor);
    if found.None? {
      assert Pipeline(ini0) == Ok(pipeline);
      assert Before(ini0, anchor, modules) == Err(ValueError);
      return Raised(ValueError);
    }
    var i := found.value;
    ghost var p0 := pipeline;
    var k := |mods|;
    while k > 0
      invariant 0 <= k <= |mods|
      invariant params.State() == ini0
      invariant pipeline == p0[..i] + mods[k..] + p0[i..]
    {
      k := k - 1;
      SpliceStep(p0[..i], mods, k, p0[i..]);
      pipeline := pipeline[..i] + [mods[k]] + pipeline[i..];
    }
    assert mods[0..] == mods;
    assert Pipeline(ini0) == Ok(p0);
    assert InsertBefore(p0, anchor, mods) == Some(pipeline);
    assert Before(ini0, anchor, modules) == SetOption(ini0, PipelineSection, ModulesOption, Join(pipeline));
    out := params.Set(PipelineSection, ModulesOption, Join(pipeline));
  }

  /** pipeline_delete: remove the first occurrence of each name in turn; ValueError at the first one missing, with the file untouched. */
  method PipelineDelete(params: Inifile, modules: Modules) returns (out: Outcome)
    modifies params
    ensures Performs(out, old(params.State()), params.State(), Delete(old(params.State()), modules))
  {
    ghost var ini0 := params.State();
    var mods := AsList(modules);
    var text := params.Get(PipelineSection, ModulesOption);
    if text.Err? {
      return Raised(text.error);
    }
    var pipeline := Split(text.value);
    ghost var p0 := pipeline;
    assert Pipeline(params.State()) == Ok(p0);
    for k := 0 to |mods|
      invariant RemoveEach(p0, mods) == RemoveEach(pipeline, mods[k..])
      invariant params.State() == ini0
    {
      assert mods[k..][1..] == mods[k + 1..];
      var next := RemoveFirst(pipeline, mods[k]);
      if next.None? {
        assert RemoveEach(p0, mods) == None;
        return Raised(ValueError);
      }
      pipeline := next.value;
    }
    assert RemoveEach(p0, mods) == Some(pipeline);
    out := params.Set(PipelineSection, ModulesOption, Join(pipeline));
  }

  /** pipeline_append: add the items one by one at the end. */
  method PipelineAppend(params: Inifile, modules: Modules) returns (out: Outcome)
    modifies params
    ensures Performs(out, old(params.State()), params.State(), Append(old(params.State()), modules))
  {
    ghost var ini0 := params.State();
    var text := params.Get(PipelineSection, ModulesOption);
    if text.Err? {
      return Raised(text.error);
    }
    var pipeline := Split(text.value);
    ghost var p0 := pipeline;
    var items := Iterated(modules);
    for k := 0 to |items|
      invariant pipeline == p0 + items[..k]
      invariant params.State() == ini0
    {
      AppendStep(p0, items, k);
      pipeline := pipeline + [items[k]];
    }
    assert items[..|items|] == items;
    assert Pipeline(ini0) == Ok(p0);
    assert Append(ini0, modules) == SetOption(ini0, PipelineSection, ModulesOption, Join(pipeline));
    out := params.Set(PipelineSection, ModulesOption, Join(pipeline));
  }

  /** One more item put at the back, the loop step of pipeline_append. */
  lemma AppendStep(p: seq<string>, items: seq<string>, k: nat)
    requires k < |items|
    ensures (p + items[..k]) + [items[k]] == p + items[..k + 1]
  {
    assert items[..k + 1] == items[..k] + [items[k]];
  }

  /** One more item put in front, the loop step of pipeline_prepend. */
  lemma PrependStep(items: seq<string>, k: nat, p: seq<string>)
    requires k < |items|
    ensures [items[k]] + (items[k + 1..] + p) == items[k..] + p
  {
    assert items[k..] == [items[k]] + items[k + 1..];
  }

  /** pipeline_prepend: insert the items at the front, from the last to the first. */
  method PipelinePrepend(params: Inifile, modules: Modules) returns (out: Outcome)
    modifies params
    ensures Performs(out, old(params.State()), params.State(), Prepend(old(params.State()), modules))
  {
    ghost var ini0 := params.State();
    var text := params.Get(PipelineSection, ModulesOption);
    if text.Err? {
      return Raised(text.error);
    }
    var pipeline := Split(text.value);
    ghost var p0 := pipeline;
    var items := Iterated(modules);
    var k := |items|;
    while k > 0
      invariant 0 <= k <= |items|
      invariant params.State() == ini0
      invariant pipeline == items[k..] + p0
    {
      k := k - 1;
      PrependStep(items, k, p0);
      pipeline := [items[k]] + pipeline;
    }
    assert items[0..] == items;
    assert Pipeline(ini0) == Ok(p0);
    assert Prepend(ini0, modules) == SetOption(ini0, PipelineSection, ModulesOption, Join(pipeline));
    out := params.Set(PipelineSection, ModulesOption, Join(pipeline));
  }

  /** pipeline_replace: pipeline_after, then pipeline_delete of the original name. */
  method PipelineReplace(params: Inifile, original: string, modules: Modules) returns (out: Outcome)
    modifies params
    ensures Performs(out, old(params.State()), params.State(), Replace(old(params.State()), original, modules))
  {
    ReplaceEffect(params.State(), original, modules);
    out := PipelineAfter(params, original, modules);
    if out.Raised? {
      return;
    }
    out := PipelineDelete(params, Names([original]));
  }

  // ---------------------------------------------------------------------------
  // apply_update: one `section.option=value`, `sampler=...` or `del ...` update
  // ---------------------------------------------------------------------------

  /** What an update string asks for, once parsed. */
  datatype Update =
    | SetValue(section: string, option: string, value: string)
    | SetSampler(sampler: string)
    | DeleteOption(section: string, option: string)
    | DeleteSection(section: string)

  /**
   * The parsing half of apply_update: split at the first `=` (then at the
   * first `.`) or read a `del`/`delete` command, stripping each part;
   * ValueError for every malformed update.
   */
  function ParseUpdate(update: string, isParams: bool): (r: Result<Update, Exc>)
    ensures r.Err? ==> r.error == ValueError
    ensures r.Ok? && r.value.SetSampler? ==> isParams
    ensures r.Ok? && (r.value.SetValue? || r.value.SetSampler?) ==> '=' in update
    ensures r.Ok? && (r.value.DeleteOption? || r.value.DeleteSection?) ==> '=' !in update && "del" <= update
  {
    if '=' in update then ParseAssignment(update, isParams)
    else if "del" <= update then ParseDelete(update)
    else Err(ValueError)
  }

  /** `keys=value`: split at the first `=`, strip both sides. */
  function ParseAssignment(update: string, isParams: bool): (r: Result<Update, Exc>)
    requires '=' in update
    ensures r.Err? ==> r.error == ValueError
    ensures r.Ok? ==> r.value.SetValue? || (r.value.SetSampler? && isParams)
  {
    var (rawKeys, rawValue) := SplitOnce(update, '=').value;
    ParseKeys(Strip(rawKeys), Strip(rawValue), isParams)
  }

  /** Stripped keys and value: `sampler` only in a parameter file, otherwise `section.option`. */
  function ParseKeys(keys: string, value: string, isParams: bool): (r: Result<Update, Exc>)
    ensures r.Err? ==> r.error == ValueError
    ensures r.Ok? ==> r.value.SetValue? || (r.value.SetSampler? && isParams)
  {
    if keys == "sampler" then
      if !isParams then Err(ValueError) else Ok(SetSampler(Strip(value)))
    else
      match SplitOnce(keys, '.')
      case None => Err(ValueError)
      case Some((section, option)) => Ok(SetValue(Strip(section), Strip(option), value))
  }

  /** `del section.option` or `del section` (also spelled `delete`). */
  function ParseDelete(update: string): (r: Result<Update, Exc>)
    ensures r.Err? ==> r.error == ValueError
    ensures r.Ok? ==> r.value.DeleteOption? || r.value.DeleteSection?
  {
    match SplitFirstWord(update)
    case None => Err(ValueError)
    case Some((cmd, keys)) =>
      if cmd != "del" && cmd != "delete" then Err(ValueError)
      else ParseDeleteKeys(keys)
  }

  /** What follows the command: an option if there is a dot, else exactly one section name. */
  function ParseDeleteKeys(keys: string): (r: Result<Update, Exc>)
    requires keys != [] && !IsSpace(keys[0])
    ensures r.Err? ==> r.error == ValueError
    ensures r.Ok? ==> r.value.DeleteOption? || r.value.DeleteSection?
  {
    if '.' in keys then
      var (section, option) := SplitOnce(keys, '.').value;
      Ok(DeleteOption(Strip(section), Strip(option)))
    else
      var names := Split(Strip(keys));
      SplitStripNonEmpty(keys);
      if |names| > 1 then Err(ValueError) else Ok(DeleteSection(names[0]))
  }

  /** The changing half of apply_update: create a missing section before setting in it, or remove. */
  function ApplyParsed(ini: Ini, u: Update): (r: Result<Ini, Exc>)
    ensures r.Err? ==> r.error == NoSectionError && (u.SetSampler? || u.DeleteOption?)
    ensures r.Ok? && u.SetValue? ==>
      r.value.sections.Keys == ini.sections.Keys + (if u.section == DefaultSection then {} else {u.section})
    ensures r.Ok? && (u.SetSampler? || u.DeleteOption?) ==> r.value.sections.Keys == ini.sections.Keys
    ensures r.Ok? && u.DeleteSection? ==> r.value.sections.Keys == ini.sections.Keys - {u.section}
  {
    match u
    case SetSampler(v) => SetOption(ini, "runtime", "sampler", v)
    case SetValue(section, option, v) =>
      if section !in ini.sections && section != DefaultSection then
        // cannot raise: the name is neither DEFAULT nor taken
        SetOption(AddSectionTo(ini, section).value, section, option, v)
      else SetOption(ini, section, option, v)
    case DeleteOption(section, option) =>
      var (next, _) :- RemoveOptionFrom(ini, section, option);
      Ok(next)
    case DeleteSection(section) => Ok(RemoveSectionFrom(ini, section).0)
  }

  /** Carry out a parsed update, or raise the parser's exception. */
  function ApplyResult(ini: Ini, parsed: Result<Update, Exc>): (r: Result<Ini, Exc>)
    ensures parsed.Err? ==> r == Err(parsed.error)
    ensures parsed.Ok? ==> r == ApplyParsed(ini, parsed.value)
  {
    var u :- parsed;
    ApplyParsed(ini, u)
  }

  /** apply_update on the contents of the file. */
  function ApplyUpdateTo(ini: Ini, update: string, isParams: bool): (r: Result<Ini, Exc>)
    ensures r.Err? ==> r.error == ValueError || r.error == NoSectionError
    ensures r.Ok? && '=' in update ==> ini.sections.Keys <= r.value.sections.Keys
    ensures r.Ok? && '=' !in update ==> r.value.sections.Keys <= ini.sections.Keys
  {
    var parsed := ParseUpdate(update, isParams);
    ApplyResult(ini, parsed)
  }

  /**
   * apply_update, changing the file in place. The update is parsed first:
   * every way the Python code can raise before touching the file is a parse
   * error, so parsing ahead of the first change raises the same exceptions
   * and leaves the same file.
   */
  method ApplyUpdate(ini: Inifile, update: string, isParams: bool) returns (out: Outcome)
    modifies ini
    ensures Performs(out, old(ini.State()), ini.State(), ApplyUpdateTo(old(ini.State()), update, isParams))
  {
    var parsed := ParseUpdate(update, isParams);
    if parsed.Err? {
      return Raised(parsed.error);
    }
    match parsed.value
    case SetSampler(sampler) =>
      out := ini.Set("runtime", "sampler", sampler);
    case SetValue(section, option, value) =>
      if !ini.HasSection(section) && section != DefaultSection {
        // cannot raise: the name is neither DEFAULT nor taken
        var added := ini.AddSection(section);
      }
      out := ini.Set(section, option, value);
    case DeleteOption(section, option) =>
      var existed;
      out, existed := ini.RemoveOption(section, option);
    case DeleteSection(section) =>
      var existed := ini.RemoveSection(section);
      out := Done;
  }

  // ---------------------------------------------------------------------------
  // Lemmas about apply_update
  // ---------------------------------------------------------------------------

  /** An update with an `=` parses as its stripped keys and value. */
  lemma SplitAssignment(rawKeys: string, rawValue: string, isParams: bool)
    requires '=' !in rawKeys
    ensures ParseUpdate(rawKeys + "=" + rawValue, isParams) == ParseKeys(Strip(rawKeys), Strip(rawValue), isParams)
  {
    assert rawKeys + "=" + rawValue == rawKeys + ['='] + rawValue;
    SplitOnceGlue(rawKeys, '=', rawValue);
  }

  /** Keys with a dot (so not `sampler`) name a section and an option, split at the first dot. */
  lemma DottedKeys(section: string, option: string, value: string, isParams: bool)
    requires '.' !in section
    ensures ParseKeys(section + "." + option, value, isParams) == Ok(SetValue(Strip(section), Strip(option), value))
  {
    var keys := section + "." + option;
    assert keys != "sampler" by {
      assert '.' in keys && '.' !in "sampler";
    }
    assert keys == section + ['.'] + option;
    SplitOnceGlue(section, '.', option);
  }

  /** `section.option=value` parses back into its three parts, each stripped. */
  lemma ParseSetRoundTrip(section: string, option: string, value: string, isParams: bool)
    requires '=' !in section && '.' !in section && '=' !in option
    requires section != [] ==> !IsSpace(section[0])
    requires option != [] ==> !IsSpace(option[|option| - 1])
    ensures ParseUpdate(section + "." + option + "=" + value, isParams)
            == Ok(SetValue(Strip(section), Strip(option), Strip(value)))
  {
    var keys := section + "." + option;
    assert '=' !in keys;
    assert keys[0] == if section == [] then '.' else section[0];
    assert !IsSpace(keys[0]) && !IsSpace(keys[|keys| - 1]);
    DottedKeys(section, option, Strip(value), isParams);
    StripFixed(keys);
    SplitAssignment(keys, value, isParams);
  }

  /** Keys that strip to `sampler` set the sampler, in a parameter file only; the name is stripped. */
  lemma ParseSamplerRoundTrip(keys: string, value: string, isParams: bool)
    requires '=' !in keys && Strip(keys) == "sampler"
    ensures ParseUpdate(keys + "=" + value, isParams) == if isParams then Ok(SetSampler(Strip(value))) else Err(ValueError)
  {
    var expected := if isParams then Ok(SetSampler(Strip(value))) else Err(ValueError);
    StripIdempotent(value);
    assert ParseKeys("sampler", Strip(value), isParams) == expected;
    SplitAssignment(keys, value, isParams);
  }

  /** Apart from `sampler=...`, which only a parameter file accepts, an update parses the same for every kind of file. */
  lemma SamplerOnlyInParams(update: string)
    ensures var p := ParseUpdate(update, true);
      ParseUpdate(update, false) == (if p.Ok? && p.value.SetSampler? then Err(ValueError) else p)
  {
  }

  /** `del keys` (or `delete keys`) parses as its keys. */
  lemma SplitDeletion(cmd: string, keys: string, isParams: bool)
    requires cmd == "del" || cmd == "delete"
    requires keys != [] && !IsSpace(keys[0]) && '=' !in keys
    ensures ParseUpdate(cmd + " " + keys, isParams) == ParseDeleteKeys(keys)
  {
    var update := cmd + " " + keys;
    assert '=' !in update;
    assert "del" <= update by {
      assert "del" <= cmd <= update;
    }
    CommandSplit(cmd, keys);
  }

  /** The one-split of `cmd keys` is the command and the keys. */
  lemma {:induction false} CommandSplit(cmd: string, keys: string)
    requires IsWord(cmd)
    requires keys != [] && !IsSpace(keys[0])
    ensures SplitFirstWord(cmd + " " + keys) == Some((cmd, keys))
  {
    var update := cmd + " " + keys;
    assert update == cmd + [' '] + keys;
    assert update[0] == cmd[0];
    assert TrimLeft(update) == update;
    assert TakeWord(update) == cmd by {
      TakeWordBefore(cmd, ' ', keys);
      WordTakesWhole(cmd);
    }
    assert update[|cmd|..] == [' '] + keys;
    assert TrimLeft([' '] + keys) == TrimLeft(keys) by {
      assert ([' '] + keys)[1..] == keys;
    }
    assert TrimLeft(keys) == keys;
  }

  /** `del section.option` parses into the stripped section and option. */
  lemma ParseDeleteOptionRoundTrip(cmd: string, section: string, option: string, isParams: bool)
    requires cmd == "del" || cmd == "delete"
    requires '=' !in section && '.' !in section && '=' !in option
    requires section != [] ==> !IsSpace(section[0])
    ensures ParseUpdate(cmd + " " + section + "." + option, isParams) == Ok(DeleteOption(Strip(section), Strip(option)))
  {
    var keys := section + "." + option;
    assert cmd + " " + section + "." + option == cmd + " " + keys;
    SplitDeletion(cmd, keys, isParams);
    assert keys == section + ['.'] + option;
    SplitOnceGlue(section, '.', option);
  }

  /** `del section` parses into the section name. */
  lemma ParseDeleteSectionRoundTrip(cmd: string, name: string, isParams: bool)
    requires cmd == "del" || cmd == "delete"
    requires IsWord(name) && '=' !in name && '.' !in name
    ensures ParseUpdate(cmd + " " + name, isParams) == Ok(DeleteSection(name))
  {
    SplitDeletion(cmd, name, isParams);
    StripFixed(name);
    WordSplit(name);
  }

  /** `del a b` names two sections and is refused. */
  lemma DeleteTwoSectionsRefused(a: string, b: string, isParams: bool)
    requires IsWord(a) && IsWord(b) && '=' !in a + b && '.' !in a + b
    ensures ParseUpdate("del " + a + " " + b, isParams) == Err(ValueError)
  {
    var keys := a + " " + b;
    assert keys == a + [' '] + b;
    assert "del " + a + " " + b == "del" + " " + keys;
    assert '=' !in keys && '.' !in keys by {
      assert forall i :: 0 <= i < |keys| ==> keys[i] == ' ' || keys[i] in a + b;
    }
    assert keys[0] == a[0] && keys[|keys| - 1] == b[|b| - 1];
    StripFixed(keys);
    assert Split(keys) == [a, b] by {
      SplitAround(a, ' ', b);
      WordSplit(a);
      WordSplit(b);
    }
    assert ParseDeleteKeys(keys) == Err(ValueError);
    SplitDeletion("del", keys, isParams);
  }


  /**
   * Setting a value never raises: a missing section is created first. In a
   * named section the value reads back and nothing else changes; with the
   * section written DEFAULT or left empty the value lands in the defaults,
   * and an empty name also leaves an empty section called "" behind.
   */
  lemma SetValueEffect(ini: Ini, section: string, option: string, value: string)
    ensures var r := ApplyParsed(ini, SetValue(section, option, value));
      && r.Ok?
      && (!NamesDefaults(section) ==>
            && GetOption(r.value, section, option) == Ok(value)
            && r.value.sections.Keys == ini.sections.Keys + {section}
            && r.value.defaults == ini.defaults
            && forall s :: s in ini.sections && s != section ==> r.value.sections[s] == ini.sections[s])
      && (NamesDefaults(section) ==> r.value.defaults == ini.defaults[option := value])
      && (section == DefaultSection ==> r.value.sections == ini.sections)
      && (section == "" ==> r.value.sections == ini.sections[section := if section in ini.sections then ini.sections[section] else map[]])
  {
    if section !in ini.sections && section != DefaultSection {
      var added := AddSectionTo(ini, section).value;
      if section != "" {
        SetThenGet(added, section, option, value);
      }
    } else if !NamesDefaults(section) {
      SetThenGet(ini, section, option, value);
    }
  }

  /** `del section.option`: NoSectionError for an unknown named section, otherwise exactly that option removed from the section (or from the defaults); afterwards it reads back only from a default. */
  lemma DeleteOptionEffect(ini: Ini, section: string, option: string)
    ensures !NamesDefaults(section) && section !in ini.sections ==>
      ApplyParsed(ini, DeleteOption(section, option)) == Err(NoSectionError)
    ensures !NamesDefaults(section) && section in ini.sections ==>
      ApplyParsed(ini, DeleteOption(section, option))
        == Ok(ini.(sections := ini.sections[section := ini.sections[section] - {option}]))
    ensures NamesDefaults(section) ==>
      ApplyParsed(ini, DeleteOption(section, option)) == Ok(ini.(defaults := ini.defaults - {option}))
    ensures section in ini.sections && !NamesDefaults(section) && option !in ini.defaults ==>
      GetOption(ApplyParsed(ini, DeleteOption(section, option)).value, section, option) == Err(NoOptionError)
  {
  }

  /** `del section` never raises; the section is gone afterwards, and deleting a missing section changes nothing. */
  lemma DeleteSectionEffect(ini: Ini, section: string)
    ensures var r := ApplyParsed(ini, DeleteSection(section));
      && r.Ok? && section !in r.value.sections && r.value.defaults == ini.defaults
      && r.value == ini.(sections := ini.sections - {section})
      && (section !in ini.sections ==> r.value == ini)
  {
    if section !in ini.sections {
      assert ini.sections - {section} == ini.sections;
    }
  }

  // ---------------------------------------------------------------------------
  // apply_updates: a list of updates, every failure reported as ValueError
  // ---------------------------------------------------------------------------

  /** apply_updates on the contents of the file: the updates in order, stopping at the first that raises, whose exception is replaced by ValueError. */
  function ApplyUpdatesTo(ini: Ini, updates: seq<string>, isParams: bool): (r: (Ini, Outcome))
    ensures r.1 == Done || r.1 == Raised(ValueError)
    decreases |updates|
  {
    if updates == [] then (ini, Done)
    else
      match ApplyUpdateTo(ini, updates[0], isParams)
      case Err(_) => (ini, Raised(ValueError))
      case Ok(next) => ApplyUpdatesTo(next, updates[1..], isParams)
  }

  /** apply_updates, changing the file in place. */
  method ApplyUpdates(ini: Inifile, updates: seq<string>, isParams: bool) returns (out: Outcome)
    modifies ini
    ensures (ini.State(), out) == ApplyUpdatesTo(old(ini.State()), updates, isParams)
  {
    for k := 0 to |updates|
      invariant ApplyUpdatesTo(old(ini.State()), updates, isParams) == ApplyUpdatesTo(ini.State(), updates[k..], isParams)
    {
      assert updates[k..][1..] == updates[k + 1..];
      var o := ApplyUpdate(ini, updates[k], isParams);
      if o.Raised? {
        return Raised(ValueError);
      }
    }
    assert updates[|updates|..] == [];
    out := Done;
  }

  /** Running two lists of updates one after the other is running their concatenation. */
  lemma {:induction false} ApplyUpdatesConcat(ini: Ini, a: seq<string>, b: seq<string>, isParams: bool)
    ensures var (mid, o) := ApplyUpdatesTo(ini, a, isParams);
      ApplyUpdatesTo(ini, a + b, isParams) == if o == Done then ApplyUpdatesTo(mid, b, isParams) else (mid, o)
    decreases |a|
  {
    if a == [] {
      assert a + b == b;
    } else {
      assert (a + b)[0] == a[0] && (a + b)[1..] == a[1..] + b;
      match ApplyUpdateTo(ini, a[0], isParams)
      case Err(_) =>
      case Ok(next) => ApplyUpdatesConcat(next, a[1..], b, isParams);
    }
  }

  // ---------------------------------------------------------------------------
  // apply_pipeline_update(s): `action module new...` edits of the module list
  // ---------------------------------------------------------------------------

  /**
   * apply_pipeline_update on the contents of the file: the action word picks
   * the helper; IndexError where the list is too short for the action,
   * ValueError for an unknown action (prepend among them: it is documented
   * but not dispatched).
   */
  function PipelineUpdateTo(ini: Ini, update: seq<string>): (r: Result<Ini, Exc>)
    ensures r.Ok? ==> ModulesEdit(ini, r.value)
    ensures update == [] ==> r == Err(IndexError)
    ensures update != [] && update[0] !in {"after", "before", "replace", "del", "delete", "append"} ==> r == Err(ValueError)
    ensures |update| == 1 && update[0] in {"after", "before", "replace"} ==> r == Err(IndexError)
    ensures r.Err? && r.error == IndexError ==> |update| < 2
  {
    if update == [] then Err(IndexError)
    else
      var action := update[0];
      if action == "after" || action == "before" || action == "replace" then
        if |update| < 2 then Err(IndexError)
        else if action == "after" then After(ini, update[1], Names(update[2..]))
        else if action == "before" then Before(ini, update[1], Names(update[2..]))
        else Replace(ini, update[1], Names(update[2..]))
      else if action == "del" || action == "delete" then Delete(ini, Names(update[1..]))
      else if action == "append" then Append(ini, Names(update[1..]))
      else Err(ValueError)
  }

  /** apply_pipeline_update, changing the file in place. */
  method ApplyPipelineUpdate(params: Inifile, update: seq<string>) returns (out: Outcome)
    modifies params
    ensures Performs(out, old(params.State()), params.State(), PipelineUpdateTo(old(params.State()), update))
  {
    if update == [] {
      return Raised(IndexError);
    }
    var action := update[0];
    if action == "after" || action == "before" || action == "replace" {
      if |update| < 2 {
        return Raised(IndexError);
      }
      if action == "after" {
        out := PipelineAfter(params, update[1], Names(update[2..]));
      } else if action == "before" {
        out := PipelineBefore(params, update[1], Names(update[2..]));
      } else {
        out := PipelineReplace(params, update[1], Names(update[2..]));
      }
    } else if action == "del" || action == "delete" {
      out := PipelineDelete(params, Names(update[1..]));
    } else if action == "append" {
      out := PipelineAppend(params, Names(update[1..]));
    } else {
      out := Raised(ValueError);
    }
  }

  /** apply_pipeline_updates on the contents of the file: each string split into words, applied in order; the first exception propagates as it is. */
  function PipelineUpdatesTo(ini: Ini, updates: seq<string>): (r: (Ini, Outcome))
    ensures r.0 == ini || ModulesEdit(ini, r.0)
    ensures r.1.Raised? ==> r.1.exc != DuplicateSectionError
    decreases |updates|
  {
    if updates == [] then (ini, Done)
    else
      match PipelineUpdateTo(ini, Split(updates[0]))
      case Err(e) => (ini, Raised(e))
      case Ok(next) =>
        var r := PipelineUpdatesTo(next, updates[1..]);
        if r.0 != next then ModulesEditTransitive(ini, next, r.0); r else r
  }

  /** apply_pipeline_updates, changing the file in place. */
  method ApplyPipelineUpdates(params: Inifile, updates: seq<string>) returns (out: Outcome)
    modifies params
    ensures (params.State(), out) == PipelineUpdatesTo(old(params.State()), updates)
  {
    for k := 0 to |updates|
      invariant PipelineUpdatesTo(old(params.State()), updates) == PipelineUpdatesTo(params.State(), updates[k..])
    {
      assert updates[k..][1..] == updates[k + 1..];
      out := ApplyPipelineUpdate(params, Split(updates[k]));
      if out.Raised? {
        return;
      }
    }
    assert updates[|updates|..] == [];
    out := Done;
  }

  /** Running two lists of pipeline updates one after the other is running their concatenation. */
  lemma {:induction false} PipelineUpdatesConcat(ini: Ini, a: seq<string>, b: seq<string>)
    ensures var (mid, o) := PipelineUpdatesTo(ini, a);
      PipelineUpdatesTo(ini, a + b) == if o == Done then PipelineUpdatesTo(mid, b) else (mid, o)
    decreases |a|
  {
    if a == [] {
      assert a + b == b;
    } else {
      assert (a + b)[0] == a[0] && (a + b)[1..] == a[1..] + b;
      match PipelineUpdateTo(ini, Split(a[0]))
      case Err(_) =>
      case Ok(next) => PipelineUpdatesConcat(next, a[1..], b);
    }
  }

  /** `prepend` is documented as an action but refused like an unknown one. */
  lemma PrependRefused(ini: Ini, names: seq<string>)
    ensures PipelineUpdateTo(ini, ["prepend"] + names) == Err(ValueError)
  {
    assert (["prepend"] + names)[0] == "prepend";
  }

  /**
   * pipeline_before documents "$" as "insert at the end", but the code looks "$" up like
   * any other module name: unless a module is literally called "$", it raises ValueError.
   */
  lemma BeforeDollarRefused(ini: Ini, modules: Modules)
    requires Pipeline(ini).Ok? && "$" !in Pipeline(ini).value
    ensures Before(ini, "$", modules) == Err(ValueError)
  {
    BeforeEffect(ini, "$", modules);
  }

  /** A blank pipeline update splits into no words, so reading its action raises IndexError and nothing changes. */
  lemma BlankPipelineUpdate(ini: Ini, update: string, rest: seq<string>)
    requires AllSpace(update)
    ensures PipelineUpdatesTo(ini, [update] + rest) == (ini, Raised(IndexError))
  {
    SplitAllSpace(update);
    assert ([update] + rest)[0] == update;
  }

  /** A textual pipeline update `action name new...` with word names is dispatched to the helper it names. */
  lemma PipelineUpdateWords(ini: Ini, action: string, name: string, names: seq<string>)
    requires IsWord(action) && IsWord(name) && Words(names)
    ensures var words := Split(Join([action, name] + names));
      words == [action, name] + names
      && (action == "after" ==> PipelineUpdateTo(ini, words) == After(ini, name, Names(names)))
      && (action == "before" ==> PipelineUpdateTo(ini, words) == Before(ini, name, Names(names)))
      && (action == "replace" ==> PipelineUpdateTo(ini, words) == Replace(ini, name, Names(names)))
      && (action == "append" ==> PipelineUpdateTo(ini, words) == Append(ini, Names([name] + names)))
      && (action == "del" || action == "delete" ==> PipelineUpdateTo(ini, words) == Delete(ini, Names([name] + names)))
  {
    var words := [action, name] + names;
    assert Words(words);
    SplitJoinWords(words);
    assert words[2..] == names;
    assert words[1..] == [name] + names;
  }

  // ---------------------------------------------------------------------------
  // set_output_dir
  // ---------------------------------------------------------------------------

  /** `os.path.join(a, b)` on POSIX: an absolute b replaces a; otherwise one `/` separates them unless a is empty or already ends with one. */
  function PathJoin(a: string, b: string): (r: string)
    ensures |b| <= |r| && r[|r| - |b|..] == b
    ensures (b == [] || b[0] != '/') ==> a <= r && |r| <= |a| + 1 + |b|
    ensures (b == [] || b[0] != '/') && a != [] ==> |r| > |b| && r[|r| - |b| - 1] == '/'
    ensures (b == [] || b[0] != '/') ==> |r| == |a| + |b| + (if a != [] && a[|a| - 1] != '/' then 1 else 0)
    ensures b != [] && b[0] == '/' ==> r == b
  {
    if b != [] && b[0] == '/' then b
    else if a == [] || a[|a| - 1] == '/' then a + b
    else a + "/" + b
  }

  /** `os.path.join(output_dir, name)` when the name holds no `/`: the directory, one separator, the name. */
  lemma PathJoinFile(dir: string, name: string)
    requires name != [] && name[0] != '/'
    ensures var r := PathJoin(dir, name);
      dir <= r && r[|r| - |name|..] == name
      && (dir == [] ==> r == name)
      && (dir != [] ==> r == (if dir[|dir| - 1] == '/' then dir else dir + "/") + name)
  {
  }

  /** `if not has_section(section): add_section(section)`. */
  function EnsureSection(ini: Ini, section: string): (r: Result<Ini, Exc>)
    ensures section != DefaultSection ==> r.Ok?
    ensures r.Ok? ==> r.value.sections.Keys == ini.sections.Keys + {section} && r.value.defaults == ini.defaults
  {
    if section in ini.sections then Ok(ini) else AddSectionTo(ini, section)
  }

  /** `if has_section(section): set(section, option, value)`. */
  function SetIfPresent(ini: Ini, section: string, option: string, value: string): (r: Result<Ini, Exc>)
    ensures !NamesDefaults(section) ==> r.Ok?
    ensures !NamesDefaults(section) ==> r.value.sections.Keys == ini.sections.Keys && r.value.defaults == ini.defaults
    ensures !NamesDefaults(section) ==>
      forall s :: s in ini.sections && s != section ==> r.value.sections[s] == ini.sections[s]
  {
    if section in ini.sections then SetOption(ini, section, option, value) else Ok(ini)
  }

  /** The first half of set_output_dir: make sure `[output]` and `[test]` exist and point the output file and the test directory into the directory. */
  function OutputAndTestSet(ini: Ini, name: string, dir: string): (r: Result<Ini, Exc>)
    ensures r.Ok? && r.value.defaults == ini.defaults
    ensures r.Ok? ==> r.value.sections.Keys == ini.sections.Keys + {"output", "test"}
  {
    // neither section name is DEFAULT, and each section exists once ensured, so no step raises
    var withOutput := EnsureSection(ini, "output").value;
    var withTest := EnsureSection(withOutput, "test").value;
    var filed := SetOption(withTest, "output", "filename", PathJoin(dir, name + ".txt")).value;
    SetOption(filed, "test", "save_dir", PathJoin(dir, name))
  }

  /**
   * set_output_dir on the contents of the file: the output file and the
   * test directory, then the multinest and polychord outputs where those
   * sections exist.
   */
  function OutputDirSet(ini: Ini, name: string, dir: string): (r: Result<Ini, Exc>)
    ensures r.Ok? && r.value.defaults == ini.defaults
    ensures r.Ok? ==> r.value.sections.Keys == ini.sections.Keys + {"output", "test"}
  {
    SamplerOutputsSet(OutputAndTestSet(ini, name, dir).value, name, dir)
  }

  /** The second half of set_output_dir: the multinest and polychord outputs, where those sections exist. */
  function SamplerOutputsSet(ini: Ini, name: string, dir: string): (r: Result<Ini, Exc>)
    ensures r.Ok? && r.value.defaults == ini.defaults && r.value.sections.Keys == ini.sections.Keys
    ensures r.Ok? ==> forall s :: s in ini.sections && s != "multinest" && s != "polychord" ==> r.value.sections[s] == ini.sections[s]
  {
    // neither section name is DEFAULT, so no step raises
    var multinest := SetIfPresent(ini, "multinest", "multinest_outfile_root", PathJoin(dir, name + ".multinest")).value;
    var rooted := SetIfPresent(multinest, "polychord", "polychord_outfile_root", name + ".polychord").value;
    SetIfPresent(rooted, "polychord", "base_dir", dir)
  }

  /** set_output_dir, changing the file in place. */
  method SetOutputDir(params: Inifile, name: string, dir: string) returns (out: Outcome)
    modifies params
    ensures Performs(out, old(params.State()), params.State(), OutputDirSet(old(params.State()), name, dir))
  {
    // none of these calls can raise: each section exists or has just been added
    if !params.HasSection("output") {
      out := params.AddSection("output");
    }
    if !params.HasSection("test") {
      out := params.AddSection("test");
    }
    out := params.Set("output", "filename", PathJoin(dir, name + ".txt"));
    out := params.Set("test", "save_dir", PathJoin(dir, name));
    if params.HasSection("multinest") {
      out := params.Set("multinest", "multinest_outfile_root", PathJoin(dir, name + ".multinest"));
    }
    if params.HasSection("polychord") {
      out := params.Set("polychord", "polychord_outfile_root", name + ".polychord");
      out := params.Set("polychord", "base_dir", dir);
    }
  }

  /** The section names set_output_dir touches are distinct, and none of them is DEFAULT. */
  lemma OutputSectionNames()
    ensures "output" != "test" && "output" != "multinest" && "output" != "polychord"
    ensures "test" != "multinest" && "test" != "polychord" && "multinest" != "polychord"
    ensures !NamesDefaults("output") && !NamesDefaults("test")
    ensures !NamesDefaults("multinest") && !NamesDefaults("polychord")
    ensures "polychord_outfile_root" != "base_dir"
  {
    assert "polychord_outfile_root"[0] != "base_dir"[0];
  }

  /** The options of a section, none if it is missing. */
  function Existing(ini: Ini, section: string): map<string, string>
  {
    if section in ini.sections then ini.sections[section] else map[]
  }

  /** Making sure a section exists never raises for a name other than DEFAULT, and keeps the section's options if it was there. */
  lemma EnsureSectionEffect(ini: Ini, section: string)
    requires section != DefaultSection
    ensures EnsureSection(ini, section) == Ok(ini.(sections := ini.sections[section := Existing(ini, section)]))
  {
    if section in ini.sections {
      assert ini.sections[section := ini.sections[section]] == ini.sections;
    }
  }

  /** Setting an option of a section that exists succeeds and changes that one option of that one section. */
  lemma SetInSection(ini: Ini, section: string, option: string, value: string)
    requires section in ini.sections && !NamesDefaults(section)
    ensures SetOption(ini, section, option, value)
            == Ok(ini.(sections := ini.sections[section := ini.sections[section][option := value]]))
  {
  }

  /** Setting an option of a section only if it exists never raises, and changes nothing but that one option of that one section. */
  lemma SetIfPresentEffect(ini: Ini, section: string, option: string, value: string)
    requires !NamesDefaults(section)
    ensures SetIfPresent(ini, section, option, value)
            == Ok(if section in ini.sections
                  then ini.(sections := ini.sections[section := ini.sections[section][option := value]])
                  else ini)
  {
  }

  /** Two sections written twice each: both are present with their last contents, and every other section is as before. */
  lemma UpdateTwoSections(m: map<string, map<string, string>>, o: string, t: string,
                          x: map<string, string>, y: map<string, string>, x': map<string, string>, y': map<string, string>)
    requires o != t
    ensures var s := m[o := x][t := y][o := x'][t := y'];
      && s.Keys == m.Keys + {o, t}
      && s[o] == x' && s[t] == y'
      && forall k :: k in m && k != o && k != t ==> s[k] == m[k]
  {
  }

  /** Making sure two different sections exist, one after the other: each keeps its options if it was there. */
  lemma EnsureTwoSections(ini: Ini, o: string, t: string)
    requires o != t && o != DefaultSection && t != DefaultSection
    ensures EnsureSection(EnsureSection(ini, o).value, t)
            == Ok(ini.(sections := ini.sections[o := Existing(ini, o)][t := Existing(ini, t)]))
  {
    EnsureSectionEffect(ini, o);
    var i1 := EnsureSection(ini, o).value;
    EnsureSectionEffect(i1, t);
    assert Existing(i1, t) == Existing(ini, t);
  }

  /** The first half never raises: `[output]` and `[test]` exist afterwards and point into the directory, and nothing else changes. */
  lemma OutputAndTestEffect(ini: Ini, name: string, dir: string)
    ensures var r := OutputAndTestSet(ini, name, dir);
      && r.Ok?
      && r.value.sections.Keys == ini.sections.Keys + {"output", "test"}
      && r.value.defaults == ini.defaults
      && r.value.sections["output"] == Existing(ini, "output")["filename" := PathJoin(dir, name + ".txt")]
      && r.value.sections["test"] == Existing(ini, "test")["save_dir" := PathJoin(dir, name)]
      && forall s :: s in ini.sections && s != "output" && s != "test" ==> r.value.sections[s] == ini.sections[s]
  {
    OutputSectionNames();
    var file, save := PathJoin(dir, name + ".txt"), PathJoin(dir, name);
    var eo, et := Existing(ini, "output"), Existing(ini, "test");
    var s2 := ini.sections["output" := eo]["test" := et];
    var s4 := s2["output" := eo["filename" := file]]["test" := et["save_dir" := save]];
    UpdateTwoSections(ini.sections, "output", "test", eo, et, eo["filename" := file], et["save_dir" := save]);
    assert OutputAndTestSet(ini, name, dir) == Ok(Ini(s4, ini.defaults)) by {
      EnsureTwoSections(ini, "output", "test");
      var i1 := EnsureSection(ini, "output").value;
      var i2 := EnsureSection(i1, "test").value;
      SetInSection(i2, "output", "filename", file);
      var i3 := SetOption(i2, "output", "filename", file).value;
      SetInSection(i3, "test", "save_dir", save);
    }
  }

  /** One option set in section a and two in section b, each only if its section exists: nothing raises, the same sections remain, and only those options change. */
  lemma SetThreeIfPresent(ini: Ini, a: string, oa: string, va: string, b: string, ob: string, vb: string, ob': string, vb': string)
    requires a != b && !NamesDefaults(a) && !NamesDefaults(b)
    ensures var r := SetIfPresent(SetIfPresent(SetIfPresent(ini, a, oa, va).value, b, ob, vb).value, b, ob', vb');
      && r.Ok?
      && r.value.sections.Keys == ini.sections.Keys
      && r.value.defaults == ini.defaults
      && (a in ini.sections ==> r.value.sections[a] == ini.sections[a][oa := va])
      && (b in ini.sections ==> r.value.sections[b] == ini.sections[b][ob := vb][ob' := vb'])
      && (forall k :: k in ini.sections && k != a && k != b ==> r.value.sections[k] == ini.sections[k])
      && (a in r.value.sections ==> Holds(r.value, a, oa, va))
      && (b in r.value.sections ==> Holds(r.value, b, ob', vb') && (ob != ob' ==> Holds(r.value, b, ob, vb)))
  {
    SetIfPresentEffect(ini, a, oa, va);
    var i1 := SetIfPresent(ini, a, oa, va).value;
    SetIfPresentEffect(i1, b, ob, vb);
    var i2 := SetIfPresent(i1, b, ob, vb).value;
    SetIfPresentEffect(i2, b, ob', vb');
  }

  /** The second half never raises, points the multinest and polychord sections that exist into the directory, and changes nothing else. */
  lemma SamplerOutputsEffect(ini: Ini, name: string, dir: string)
    ensures var r := SamplerOutputsSet(ini, name, dir);
      && r.Ok?
      && r.value.sections.Keys == ini.sections.Keys
      && r.value.defaults == ini.defaults
      && ("multinest" in ini.sections ==>
            r.value.sections["multinest"]
            == ini.sections["multinest"]["multinest_outfile_root" := PathJoin(dir, name + ".multinest")])
      && ("polychord" in ini.sections ==>
            r.value.sections["polychord"]
            == ini.sections["polychord"]["polychord_outfile_root" := name + ".polychord"]["base_dir" := dir])
      && forall s :: s in ini.sections && s != "multinest" && s != "polychord" ==> r.value.sections[s] == ini.sections[s]
  {
    OutputSectionNames();
    SetThreeIfPresent(ini, "multinest", "multinest_outfile_root", PathJoin(dir, name + ".multinest"),
                      "polychord", "polychord_outfile_root", name + ".polychord", "base_dir", dir);
    var i1 := SetIfPresent(ini, "multinest", "multinest_outfile_root", PathJoin(dir, name + ".multinest")).value;
    var i2 := SetIfPresent(i1, "polychord", "polychord_outfile_root", name + ".polychord").value;
    assert SamplerOutputsSet(ini, name, dir) == SetIfPresent(i2, "polychord", "base_dir", dir);
  }

  /** Two rounds of changes to the sections, the first touching only o and t (and adding them), the second only a and b: what the two together leave unchanged. */
  lemma ComposeSections(m0: map<string, map<string, string>>, m1: map<string, map<string, string>>,
                        m2: map<string, map<string, string>>, o: string, t: string, a: string, b: string)
    requires o != a && o != b && t != a && t != b
    requires m1.Keys == m0.Keys + {o, t}
    requires forall k :: k in m0 && k != o && k != t ==> m1[k] == m0[k]
    requires m2.Keys == m1.Keys
    requires forall k :: k in m1 && k != a && k != b ==> m2[k] == m1[k]
    ensures m2.Keys == m0.Keys + {o, t}
    ensures m2[o] == m1[o] && m2[t] == m1[t]
    ensures a in m0 ==> a in m1 && m1[a] == m0[a]
    ensures b in m0 ==> b in m1 && m1[b] == m0[b]
    ensures forall k :: k in m0 && k != o && k != t && k != a && k != b ==> m2[k] == m0[k]
  {
  }

  /**
   * set_output_dir never raises. Afterwards `[output]` and `[test]` exist
   * and point into the directory, the multinest and polychord sections that
   * were there point into it too, no other section is added, and every other
   * section and the defaults are as before.
   */
  lemma SetOutputDirEffect(ini: Ini, name: string, dir: string)
    ensures var r := OutputDirSet(ini, name, dir);
      && r.Ok?
      && r.value.sections.Keys == ini.sections.Keys + {"output", "test"}
      && r.value.defaults == ini.defaults
      && r.value.sections["output"] == Existing(ini, "output")["filename" := PathJoin(dir, name + ".txt")]
      && r.value.sections["test"] == Existing(ini, "test")["save_dir" := PathJoin(dir, name)]
      && ("multinest" in ini.sections ==>
            r.value.sections["multinest"]
            == ini.sections["multinest"]["multinest_outfile_root" := PathJoin(dir, name + ".multinest")])
      && ("polychord" in ini.sections ==>
            r.value.sections["polychord"]
            == ini.sections["polychord"]["polychord_outfile_root" := name + ".polychord"]["base_dir" := dir])
      && forall s :: s in ini.sections && s != "output" && s != "test" && s != "multinest" && s != "polychord" ==>
           r.value.sections[s] == ini.sections[s]
  {
    OutputSectionNames();
    OutputAndTestEffect(ini, name, dir);
    var saved := OutputAndTestSet(ini, name, dir).value;
    SamplerOutputsEffect(saved, name, dir);
    assert OutputDirSet(ini, name, dir) == SamplerOutputsSet(saved, name, dir);
    var r := OutputDirSet(ini, name, dir).value;
    ComposeSections(ini.sections, saved.sections, r.sections, "output", "test", "multinest", "polychord");
  }

  /** The section exists and holds `value` for `option`. */
  predicate Holds(ini: Ini, section: string, option: string, value: string) {
    section in ini.sections && option in ini.sections[section] && ini.sections[section][option] == value
  }

  /** Setting an option of a section to the value it already holds leaves the file as it was. */
  lemma SetHeld(ini: Ini, section: string, option: string, value: string)
    requires !NamesDefaults(section) && Holds(ini, section, option, value)
    ensures SetOption(ini, section, option, value) == Ok(ini)
    ensures SetIfPresent(ini, section, option, value) == Ok(ini)
  {
    assert ini.sections[section][option := value] == ini.sections[section];
    assert ini.sections[section := ini.sections[section]] == ini.sections;
  }

  /** The file's output, test, multinest and polychord entries point into the directory the way set_output_dir sets them. */
  predicate PointsInto(ini: Ini, name: string, dir: string) {
    && Holds(ini, "output", "filename", PathJoin(dir, name + ".txt"))
    && Holds(ini, "test", "save_dir", PathJoin(dir, name))
    && ("multinest" in ini.sections ==> Holds(ini, "multinest", "multinest_outfile_root", PathJoin(dir, name + ".multinest")))
    && ("polychord" in ini.sections ==>
          && Holds(ini, "polychord", "polychord_outfile_root", name + ".polychord")
          && Holds(ini, "polychord", "base_dir", dir))
  }

  /** After set_output_dir the file points into the directory. */
  lemma SetOutputDirPoints(ini: Ini, name: string, dir: string)
    ensures OutputDirSet(ini, name, dir).Ok?
    ensures PointsInto(OutputDirSet(ini, name, dir).value, name, dir)
  {
    OutputAndTestPoint(ini, name, dir);
    SamplerOutputsPoint(ini, name, dir);
  }

  /** The output and test entries point into the directory. */
  lemma OutputAndTestPoint(ini: Ini, name: string, dir: string)
    ensures OutputDirSet(ini, name, dir).Ok?
    ensures var r := OutputDirSet(ini, name, dir).value;
      && Holds(r, "output", "filename", PathJoin(dir, name + ".txt"))
      && Holds(r, "test", "save_dir", PathJoin(dir, name))
  {
    SetOutputDirEffect(ini, name, dir);
  }

  /** The multinest and polychord entries, where those sections exist, point into the directory. */
  lemma SamplerOutputsPoint(ini: Ini, name: string, dir: string)
    ensures OutputDirSet(ini, name, dir).Ok?
    ensures var r := OutputDirSet(ini, name, dir).value;
      && ("multinest" in r.sections ==> Holds(r, "multinest", "multinest_outfile_root", PathJoin(dir, name + ".multinest")))
      && ("polychord" in r.sections ==>
            && Holds(r, "polychord", "polychord_outfile_root", name + ".polychord")
            && Holds(r, "polychord", "base_dir", dir))
  {
    OutputSectionNames();
    OutputAndTestEffect(ini, name, dir);
    var saved := OutputAndTestSet(ini, name, dir).value;
    SamplerOutputsEffect(saved, name, dir);
    SetThreeIfPresent(saved, "multinest", "multinest_outfile_root", PathJoin(dir, name + ".multinest"),
                      "polychord", "polychord_outfile_root", name + ".polychord", "base_dir", dir);
    assert OutputDirSet(ini, name, dir) == SamplerOutputsSet(saved, name, dir);
  }

  /** A file that already points into the directory is left as it is by set_output_dir. */
  lemma OutputDirFixed(ini: Ini, name: string, dir: string)
    requires PointsInto(ini, name, dir)
    ensures OutputDirSet(ini, name, dir) == Ok(ini)
  {
    OutputSectionNames();
    SetHeld(ini, "output", "filename", PathJoin(dir, name + ".txt"));
    SetHeld(ini, "test", "save_dir", PathJoin(dir, name));
    if "multinest" in ini.sections {
      SetHeld(ini, "multinest", "multinest_outfile_root", PathJoin(dir, name + ".multinest"));
    }
    if "polychord" in ini.sections {
      SetHeld(ini, "polychord", "polychord_outfile_root", name + ".polychord");
      SetHeld(ini, "polychord", "base_dir", dir);
    }
  }

  /** Setting the same output directory twice is setting it once. */
  lemma SetOutputDirIdempotent(ini: Ini, name: string, dir: string)
    ensures OutputDirSet(ini, name, dir).Ok?
    ensures OutputDirSet(OutputDirSet(ini, name, dir).value, name, dir) == OutputDirSet(ini, name, dir)
  {
    SetOutputDirPoints(ini, name, dir);
    OutputDirFixed(OutputDirSet(ini, name, dir).value, name, dir);
  }
}
