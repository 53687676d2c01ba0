/** The three passes as one load, two loads of an image at different addresses,
  * the relocation pass done twice, and relocation tables in another order. */
module Loading {
  import opened Tables
  import opened Widths
  import opened Patching
  import opened Symbols
  import opened Images
  import opened Loader
  import opened Positions
  import opened Resolution

  /** A complete load: the passes in order, stopping at the first error. */
  method Load(env: Environment, defs: seq<Entry>, queries: SymbolList) returns (err: nat)
    requires env.Valid()
    modifies env`headers, env`symtabs, env.mem, queries
    ensures env.Valid()
    ensures var img := old(env.Img());
            if Loads(img, env.base, defs) then
              var loaded := AfterSymbols(img, env.base, defs);
              && env.Img() == loaded && |loaded.headers| == |loaded.symtabs| == |loaded.reltabs|
              && var items := AllPatchItems(loaded, |loaded.headers|);
              && env.mem.bytes == WriteAll(old(env.mem.bytes), Done(items)) && err == Failure(items)
              && queries.entries == AnswerAll(old(queries.entries), FoundIn(Done(AllSymbolItems(AfterSections(img, env.base), defs, |img.headers|))))
            else
              && env.mem.bytes == old(env.mem.bytes) && err != 0
              && err == if FirstNobits(img.headers) < |img.headers| then NON_EMPTY_NOBITS
                        else Failure(AllSymbolItems(AfterSections(img, env.base), defs, |img.headers|))
  {
    hide AllSymbolItems, AllPatchItems, Store, FoundIn, AnswerAll, WriteAll, Done, Failure, Succeeds;
    ghost var img := env.Img();
    err := env.AssignSections();
    if err != 0 {
      return err;
    }
    assert env.Img() == AfterSections(img, env.base);
    err := env.AssignSymbols(defs, queries);
    if err != 0 {
      return err;
    }
    assert env.Img() == AfterSymbols(img, env.base, defs);
    var result, caught := env.ApplyRelocations();
    return caught;
  }

  /** Wherever the first two memories agreed at places `d` apart, the others do. */
  ghost predicate StillAlike(m1: Bytes, m2: Bytes, n1: Bytes, n2: Bytes, d: int) {
    forall x: U64 :: Look(m2, Move(x, d)) == Look(m1, x) ==> Look(n2, Move(x, d)) == Look(n1, x)
  }

  /** Two loads of a self-contained image, at different addresses into two
    * memories: same error, and bytes that agreed at corresponding places agree
    * afterwards. */
  method LoadTwice(one: Environment, two: Environment, defs: seq<Entry>, queries1: SymbolList, queries2: SymbolList)
    returns (err1: nat, err2: nat)
    requires one != two && one.mem != two.mem && queries1 != queries2 && one.Valid() && two.Valid() && one.Img() == two.Img()
    requires BothLoad(one.Img(), one.base, two.base, defs)
    modifies one`headers, one`symtabs, one.mem, two`headers, two`symtabs, two.mem, queries1, queries2
    ensures err1 == err2
    ensures StillAlike(old(one.mem.bytes), old(two.mem.bytes), one.mem.bytes, two.mem.bytes, two.base - one.base)
  {
    hide StillAlike, AfterSections, AfterSymbols, AllSymbolItems, AllPatchItems, FoundIn, AnswerAll, WriteAll, Done, Failure, Look, Move,
         Loads, BothLoad, WellFormed, FirstNobits;
    ghost var img := one.Img();
    ghost var m1, m2 := one.mem.bytes, two.mem.bytes;
    BothLoadParts(img, one.base, two.base, defs);
    err1 := Load(one, defs, queries1);
    err2 := Load(two, defs, queries2);
    LoadsStopAlike(img, one.base, two.base, defs);
    LoadsAgreeEverywhere(img, one.base, two.base, defs, m1, m2);
  }

  lemma BothLoadParts(img: Image, b1: U64, b2: U64, defs: seq<Entry>)
    requires BothLoad(img, b1, b2, defs)
    ensures WellFormed(img) && Loads(img, b1, defs) && Loads(img, b2, defs)
  {
    hide Loads, SelfContained, NoneNull, WellFormed;
  }

  lemma LoadsAgreeEverywhere(img: Image, b1: U64, b2: U64, defs: seq<Entry>, m1: Bytes, m2: Bytes)
    requires BothLoad(img, b1, b2, defs)
    ensures var one, two := AfterSymbols(img, b1, defs), AfterSymbols(img, b2, defs);
            && |one.headers| == |one.reltabs| == |one.symtabs| == |img.headers| == |two.headers| == |two.reltabs| == |two.symtabs|
            && var xs, ys := AllPatchItems(one, |img.headers|), AllPatchItems(two, |img.headers|);
               StillAlike(m1, m2, WriteAll(m1, Done(xs)), WriteAll(m2, Done(ys)), b2 - b1)
  {
    LoadsStopAlike(img, b1, b2, defs);
    hide AfterSymbols, AllPatchItems, WriteAll, Done, Look, Move, Loads, SelfContained, NoneNull;
    var xs := AllPatchItems(AfterSymbols(img, b1, defs), |img.headers|);
    var ys := AllPatchItems(AfterSymbols(img, b2, defs), |img.headers|);
    forall x: U64 | Look(m2, Move(x, b2 - b1)) == Look(m1, x)
      ensures Look(WriteAll(m2, Done(ys)), Move(x, b2 - b1)) == Look(WriteAll(m1, Done(xs)), x)
    {
      LoadsAgree(img, b1, b2, defs, m1, m2, x);
    }
  }

  lemma LoadsStopAlike(img: Image, b1: U64, b2: U64, defs: seq<Entry>)
    requires BothLoad(img, b1, b2, defs)
    ensures var one, two := AfterSymbols(img, b1, defs), AfterSymbols(img, b2, defs);
            && |one.headers| == |one.reltabs| == |one.symtabs| == |img.headers| == |two.headers| == |two.reltabs| == |two.symtabs|
            && Failure(AllPatchItems(one, |img.headers|)) == Failure(AllPatchItems(two, |img.headers|))
  {
    hide AfterSymbols, AllPatchItems, Done, WriteAll, Loads, SelfContained, NoneNull;
    PassMoves(img, b1, b2, defs, |img.headers|);
    DoneMoves(AllPatchItems(AfterSymbols(img, b1, defs), |img.headers|), AllPatchItems(AfterSymbols(img, b2, defs), |img.headers|), b2 - b1);
  }

  /** The relocation pass called twice leaves what one call leaves, and stops
    * with the same error, also where sites overlap or an entry fails. */
  method RelocateTwice(env: Environment) returns (caught: nat)
    requires env.Valid()
    modifies env.mem
    ensures var items := AllPatchItems(env.Img(), |env.headers|);
            env.mem.bytes == WriteAll(old(env.mem.bytes), Done(items)) && caught == Failure(items)
  {
    hide AllPatchItems, WriteAll, Done, Failure;
    ghost var m := env.mem.bytes;
    var result, first := env.ApplyRelocations();
    result, caught := env.ApplyRelocations();
    WriteTwice(m, Done(AllPatchItems(env.Img(), |env.headers|)));
  }

  // ------------------------------------------- relocation entries in any order

  /** The same image, with the entries of its relocation tables in another order. */
  ghost predicate Reordered(img: Image, img': Image) {
    && img' == img.(reltabs := img'.reltabs) && |img'.reltabs| == |img.reltabs|
    && forall i :: 0 <= i < |img.reltabs| ==> multiset(img'.reltabs[i]) == multiset(img.reltabs[i])
  }

  function Without<T>(s: seq<T>, k: nat): seq<T>
    requires k < |s|
  {
    s[..k] + s[k + 1..]
  }

  lemma WithoutOne<T>(s: seq<T>, k: nat)
    requires k < |s|
    ensures multiset(s) == multiset(Without(s, k)) + multiset{s[k]} && |Without(s, k)| == |s| - 1
  {
    assert s == s[..k] + [s[k]] + s[k + 1..];
  }

  /** Two lists with the same elements, from each of which one of them is taken. */
  lemma SameWithout<T>(a: seq<T>, b: seq<T>) returns (k: nat)
    requires multiset(a) == multiset(b) && a != []
    ensures k < |b| && b[k] == a[|a| - 1] && multiset(Without(b, k)) == multiset(Without(a, |a| - 1))
    ensures Without(a, |a| - 1) == a[..|a| - 1]
  {
    var n := |a| - 1;
    assert a[n] in multiset(b);
    k :| 0 <= k < |b| && b[k] == a[n];
    WithoutOne(a, n);
    WithoutOne(b, k);
    hide Without;
    assert multiset(Without(a, n)) == multiset(a) - multiset{a[n]};
    assert multiset(Without(b, k)) == multiset(b) - multiset{a[n]};
  }

  lemma NoElements<T>(a: seq<T>)
    requires multiset(a) == multiset{}
    ensures a == []
  {
    assert |multiset(a)| == |a|;
  }

  /** The results of single entries, which do not depend on where the entries are. */
  function EntryItems(syms: seq<Symbol>, start: U64, withAddend: bool, rels: seq<Relocation>): seq<Result<Patch>> {
    seq(|rels|, k requires 0 <= k < |rels| => RelocationItem(syms, start, withAddend, rels[k]))
  }

  lemma {:induction false} EntryItemsReordered(syms: seq<Symbol>, start: U64, withAddend: bool, rels: seq<Relocation>, rels': seq<Relocation>)
    requires multiset(rels) == multiset(rels')
    ensures multiset(EntryItems(syms, start, withAddend, rels)) == multiset(EntryItems(syms, start, withAddend, rels'))
    decreases |rels|
  {
    hide RelocationItem;
    if rels == [] {
      NoElements(rels');
    } else {
      var n := |rels| - 1;
      var k := SameWithout(rels, rels');
      EntryItemsReordered(syms, start, withAddend, rels[..n], Without(rels', k));
      var xs, ys := EntryItems(syms, start, withAddend, rels), EntryItems(syms, start, withAddend, rels');
      assert Without(xs, n) == EntryItems(syms, start, withAddend, rels[..n]);
      assert Without(ys, k) == EntryItems(syms, start, withAddend, Without(rels', k));
      WithoutOne(xs, n);
      WithoutOne(ys, k);
    }
  }

  lemma SectionReordered(img: Image, img': Image, i: nat)
    requires WellFormed(img) && Reordered(img, img') && i < |img.headers|
    ensures multiset(PatchItems(img, i)) == multiset(PatchItems(img', i))
  {
    hide RelocationItem, Entries, TargetOf;
    SameTarget(img, img', i);
    if TargetOf(img, i).Ok? {
      var (symbols, target) := TargetOf(img, i).value;
      var start, withAddend := img.headers[target].addr, img.headers[i].kind == RELA;
      assert TablePatches(img, i, symbols, target) == EntryItems(img.symtabs[symbols], start, withAddend, img.reltabs[i]);
      assert TablePatches(img', i, symbols, target) == EntryItems(img.symtabs[symbols], start, withAddend, img'.reltabs[i]);
      EntryItemsReordered(img.symtabs[symbols], start, withAddend, img.reltabs[i], img'.reltabs[i]);
    }
  }

  lemma SameTarget(img: Image, img': Image, i: nat)
    requires Reordered(img, img') && i < |img.headers|
    ensures TargetOf(img', i) == TargetOf(img, i)
  {
  }

  lemma {:induction false} PassReordered(img: Image, img': Image, n: nat)
    requires WellFormed(img) && Reordered(img, img') && n <= |img.headers|
    ensures multiset(AllPatchItems(img', n)) == multiset(AllPatchItems(img, n))
    decreases n
  {
    hide PatchItems, Entries;
    if n > 0 {
      PassReordered(img, img', n - 1);
      SectionReordered(img, img', n - 1);
    }
  }

  /** The patches of results that all succeed, as a multiset. */
  lemma {:induction false} DoneReordered(xs: seq<Result<Patch>>, ys: seq<Result<Patch>>)
    requires Succeeds(xs) && multiset(xs) == multiset(ys)
    ensures Succeeds(ys) && multiset(Done(xs)) == multiset(Done(ys))
    decreases |xs|
  {
    forall i | 0 <= i < |ys|
      ensures ys[i].Ok?
    {
      assert ys[i] in multiset(xs);
    }
    if xs == [] {
      NoElements(ys);
    } else {
      var n := |xs| - 1;
      var k := SameWithout(xs, ys);
      hide Done;
      DoneWithout(xs, n);
      DoneWithout(ys, k);
      DoneReordered(xs[..n], Without(ys, k));
    }
  }

  lemma DoneWithout(xs: seq<Result<Patch>>, k: nat)
    requires Succeeds(xs) && k < |xs|
    ensures Succeeds(Without(xs, k))
    ensures multiset(Done(xs)) == multiset(Done(Without(xs, k))) + multiset{xs[k].value}
  {
    hide Done;
    DoneAll(xs);
    DoneAll(Without(xs, k));
    assert Done(Without(xs, k)) == Without(Done(xs), k);
    WithoutOne(Done(xs), k);
  }

  /** If a pass succeeds and its sites are disjoint, the order of the entries
    * of the relocation tables does not matter. */
  lemma EntriesInAnyOrder(img: Image, img': Image, m: Bytes)
    requires WellFormed(img) && Reordered(img, img') && Succeeds(AllPatchItems(img, |img.headers|))
    requires Disjoint(Done(AllPatchItems(img, |img.headers|)))
    ensures Succeeds(AllPatchItems(img', |img.headers|))
    ensures WriteAll(m, Done(AllPatchItems(img', |img.headers|))) == WriteAll(m, Done(AllPatchItems(img, |img.headers|)))
  {
    hide AllPatchItems, Done, Entries, WriteAll, Disjoint;
    PassReordered(img, img', |img.headers|);
    var xs, ys := AllPatchItems(img, |img.headers|), AllPatchItems(img', |img.headers|);
    DoneReordered(xs, ys);
    AnyOrder(m, Done(xs), Done(ys));
  }
}
