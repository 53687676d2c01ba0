/** Position independence: two complete loads of one image at different
  * addresses write the same bytes at corresponding places. */
module Positions {
  import opened Tables
  import opened Widths
  import opened Patching
  import opened Symbols
  import opened Images
  import opened Resolution

  /** The image after the first pass at `base`, and after the second. */
  function AfterSections(img: Image, base: U64): Image {
    img.(headers := Placed(img.headers, base, |img.headers|))
  }

  function AfterSymbols(img: Image, base: U64, defs: seq<Entry>): Image
    requires WellFormed(img)
  {
    var placed := AfterSections(img, base);
    placed.(symtabs := Store(img.symtabs, Done(AllSymbolItems(placed, defs, |img.headers|))))
  }

  /** A load whose first two passes succeed. */
  ghost predicate Loads(img: Image, base: U64, defs: seq<Entry>)
    requires WellFormed(img)
  {
    FirstNobits(img.headers) == |img.headers| && Succeeds(AllSymbolItems(AfterSections(img, base), defs, |img.headers|))
  }

  /** The symbol a relocation entry names, where there is one. */
  predicate Names(img: Image, i: nat, k: nat, symbols: nat, index: nat) {
    && i < |img.headers| && (img.headers[i].kind == REL || img.headers[i].kind == RELA)
    && TargetOf(img, i).Ok? && TargetOf(img, i).value.0 == symbols && symbols < |img.symtabs|
    && i < |img.reltabs| && k < |img.reltabs[i]| && img.reltabs[i][k].info / 0x1_0000_0000 == index
    && 0 < index < |img.symtabs[symbols]|
  }

  predicate Internal(sym: Symbol) {
    sym.shndx != UNDEF && sym.shndx < LORESERVE
  }

  /** Every symbol a relocation names is defined inside the image. */
  ghost predicate SelfContained(img: Image) {
    forall i: nat, k: nat, symbols: nat, index: nat :: Names(img, i, k, symbols, index) ==> Internal(img.symtabs[symbols][index])
  }

  /** None of them has a null address. */
  ghost predicate NoneNull(img: Image) {
    forall i: nat, k: nat, symbols: nat, index: nat :: Names(img, i, k, symbols, index) ==> img.symtabs[symbols][index].value != 0
  }

  function Move(a: int, d: int): U64 {
    (a + d) % 0x1_0000_0000_0000_0000
  }

  // ---------------------------------------------------------------- symbols

  lemma PlacedIsWellFormed(img: Image, base: U64)
    requires WellFormed(img)
    ensures WellFormed(AfterSections(img, base))
  {
  }

  lemma ResolvedInternal(img: Image, base: U64, defs: seq<Entry>, i: nat, sym: Symbol, sym': Symbol)
    requires i < |img.headers| && Internal(sym) && Resolved(AfterSections(img, base), defs, i, sym, sym')
    ensures sym.shndx < |img.headers| && sym'.value == Move(sym.value + img.headers[sym.shndx].offset, base)
  {
    hide StringsOf, NameOf;
  }

  /** An internal symbol's address: its offset in the image plus the base. */
  lemma InternalAddress(img: Image, base: U64, defs: seq<Entry>, i: nat, k: nat)
    requires WellFormed(img) && Loads(img, base, defs)
    requires i < |img.headers| && img.headers[i].kind == SYMTAB && k < |img.symtabs[i]| && Internal(img.symtabs[i][k])
    ensures var tabs, sym := AfterSymbols(img, base, defs).symtabs, img.symtabs[i][k];
            && |tabs| == |img.symtabs| && |tabs[i]| == |img.symtabs[i]| && sym.shndx < |img.headers|
            && tabs[i][k].value == Move(sym.value + img.headers[sym.shndx].offset, base)
  {
    hide Store, Done, AllSymbolItems, Resolved, Entries, Move;
    PlacedIsWellFormed(img, base);
    PassFollowsRule(AfterSections(img, base), defs, [Symbols.Entry("", false, 0)], i, k, 0);
    ResolvedInternal(img, base, defs, i, img.symtabs[i][k], AfterSymbols(img, base, defs).symtabs[i][k]);
  }

  lemma MoveTwice(a: int, b1: int, b2: int)
    ensures Move(a, b2) == Move(Move(a, b1), b2 - b1)
  {
  }

  // ------------------------------------------------------------ relocations

  /** The same entry at another address: the site moves, the value stays. */
  ghost predicate Moved(x: Result<Patch>, y: Result<Patch>, d: int) {
    match x
    case Err(e) => y == Err(e)
    case Ok(p) => y.Ok? && y.value == Patch(Move(p.addr, d), p.value)
  }

  lemma ValueStays(s: U64, p: U64, a: int, d: int)
    ensures RelValue(Move(s, d), a, Move(p, d)) == RelValue(s, a, p)
  {
    var s', p' := Move(s, d), Move(p, d);
    assert (s' - (s + d)) % 0x1_0000_0000_0000_0000 == 0;
    assert (p' - (p + d)) % 0x1_0000_0000_0000_0000 == 0;
    assert ((s' + a - p') - (s + a - p)) % 0x1_0000_0000_0000_0000 == 0;
  }

  lemma BaseMoves(start: U64, d: int, offset: int)
    ensures Base(Move(start, d), offset) == Move(Base(start, offset), d)
  {
  }

  lemma EntryMoves(xs: seq<Symbol>, ys: seq<Symbol>, start: U64, start': U64, withAddend: bool, rel: Relocation, d: int)
    requires |xs| == |ys| && start' == Move(start, d)
    requires var index := rel.info / 0x1_0000_0000;
             0 < index < |xs| ==> xs[index].value != 0 && ys[index].value != 0 && ys[index].value == Move(xs[index].value, d)
    ensures Moved(RelocationItem(xs, start, withAddend, rel), RelocationItem(ys, start', withAddend, rel), d)
  {
    hide Accepts, Truncate, RelValue, Base, Move;
    var index, kind := rel.info / 0x1_0000_0000, rel.info % 0x1_0000_0000;
    BaseMoves(start, d, rel.offset);
    if 0 < index < |xs| {
      ValueStays(xs[index].value, Base(start, rel.offset), if withAddend then rel.addend else 0, d);
    }
  }

  ghost predicate AllMoved(xs: seq<Result<Patch>>, ys: seq<Result<Patch>>, d: int) {
    |xs| == |ys| && forall j :: 0 <= j < |xs| ==> Moved(xs[j], ys[j], d)
  }

  lemma SameTargets(img: Image, base: U64, defs: seq<Entry>, i: nat)
    requires WellFormed(img) && i < |img.headers|
    ensures var b := AfterSymbols(img, base, defs);
            && |b.headers| == |img.headers| && TargetOf(b, i) == TargetOf(img, i) && b.reltabs == img.reltabs
            && b.headers[i] == img.headers[i].(addr := Base(base, img.headers[i].offset))
  {
    hide Store, Done, AllSymbolItems;
  }

  lemma TargetIsSymtab(img: Image, i: nat)
    requires i < |img.headers| && TargetOf(img, i).Ok?
    ensures img.headers[TargetOf(img, i).value.0].kind == SYMTAB
  {
  }

  /** Both loads of an image in the conditions of the main theorem. */
  ghost predicate BothLoad(img: Image, b1: U64, b2: U64, defs: seq<Entry>) {
    && WellFormed(img) && Loads(img, b1, defs) && Loads(img, b2, defs) && SelfContained(img)
    && NoneNull(AfterSymbols(img, b1, defs)) && NoneNull(AfterSymbols(img, b2, defs))
  }

  lemma TableMoves(img: Image, b1: U64, b2: U64, defs: seq<Entry>, i: nat)
    requires BothLoad(img, b1, b2, defs) && i < |img.headers| && (img.headers[i].kind == REL || img.headers[i].kind == RELA)
    requires TargetOf(img, i).Ok?
    ensures var one, two := AfterSymbols(img, b1, defs), AfterSymbols(img, b2, defs);
            var (symbols, target) := TargetOf(img, i).value;
            && symbols < |one.symtabs| == |two.symtabs| && target < |one.headers| == |two.headers|
            && AllMoved(TablePatches(one, i, symbols, target), TablePatches(two, i, symbols, target), b2 - b1)
  {
    hide AfterSymbols, Loads, SelfContained, NoneNull, TargetOf, RelocationItem, Moved;
    var one, two := AfterSymbols(img, b1, defs), AfterSymbols(img, b2, defs);
    var (symbols, target) := TargetOf(img, i).value;
    SameTargets(img, b1, defs, i);
    SameTargets(img, b2, defs, i);
    SameTargets(img, b1, defs, target);
    SameTargets(img, b2, defs, target);
    TargetIsSymtab(img, i);
    SameShape(img, b1, defs);
    SameShape(img, b2, defs);
    MoveTwice(img.headers[target].offset, b1, b2);
    forall k | 0 <= k < |img.reltabs[i]|
      ensures Moved(TablePatches(one, i, symbols, target)[k], TablePatches(two, i, symbols, target)[k], b2 - b1)
    {
      var rel := img.reltabs[i][k];
      var index := rel.info / 0x1_0000_0000;
      if 0 < index < |img.symtabs[symbols]| {
        SymbolMoves(img, b1, b2, defs, i, k, symbols, index);
      }
      EntryMoves(one.symtabs[symbols], two.symtabs[symbols], one.headers[target].addr, two.headers[target].addr,
                 img.headers[i].kind == RELA, rel, b2 - b1);
    }
  }

  lemma SameShape(img: Image, base: U64, defs: seq<Entry>)
    requires WellFormed(img)
    ensures var tabs := AfterSymbols(img, base, defs).symtabs;
            |tabs| == |img.symtabs| && forall i :: 0 <= i < |tabs| ==> |tabs[i]| == |img.symtabs[i]|
  {
    StoreKeepsShape(img.symtabs, Done(AllSymbolItems(AfterSections(img, base), defs, |img.headers|)));
  }

  lemma SymbolMoves(img: Image, b1: U64, b2: U64, defs: seq<Entry>, i: nat, k: nat, symbols: nat, index: nat)
    requires BothLoad(img, b1, b2, defs) && Names(img, i, k, symbols, index) && img.headers[symbols].kind == SYMTAB
    ensures var one, two := AfterSymbols(img, b1, defs).symtabs, AfterSymbols(img, b2, defs).symtabs;
            && |one| == |two| == |img.symtabs| && |one[symbols]| == |two[symbols]| == |img.symtabs[symbols]|
            && one[symbols][index].value != 0 && two[symbols][index].value != 0
            && two[symbols][index].value == Move(one[symbols][index].value, b2 - b1)
  {
    hide AfterSymbols, Loads, TargetOf;
    var sym := img.symtabs[symbols][index];
    InternalAddress(img, b1, defs, symbols, index);
    InternalAddress(img, b2, defs, symbols, index);
    MoveTwice(sym.value + img.headers[sym.shndx].offset, b1, b2);
    SameTargets(img, b1, defs, i);
    SameTargets(img, b2, defs, i);
    SameShape(img, b1, defs);
    SameShape(img, b2, defs);
    assert Names(AfterSymbols(img, b1, defs), i, k, symbols, index);
    assert Names(AfterSymbols(img, b2, defs), i, k, symbols, index);
  }

  lemma SectionMoves(img: Image, b1: U64, b2: U64, defs: seq<Entry>, i: nat)
    requires BothLoad(img, b1, b2, defs) && i < |img.headers|
    ensures var one, two := AfterSymbols(img, b1, defs), AfterSymbols(img, b2, defs);
            && |one.headers| == |one.reltabs| == |one.symtabs| == |img.headers| == |two.headers| == |two.reltabs| == |two.symtabs|
            && AllMoved(PatchItems(one, i), PatchItems(two, i), b2 - b1)
  {
    hide AfterSymbols, Loads, SelfContained, NoneNull, TargetOf, TablePatches;
    SameTargets(img, b1, defs, i);
    SameTargets(img, b2, defs, i);
    SameShape(img, b1, defs);
    SameShape(img, b2, defs);
    if (img.headers[i].kind == REL || img.headers[i].kind == RELA) && TargetOf(img, i).Ok? {
      TableMoves(img, b1, b2, defs, i);
    }
  }

  lemma {:induction false} PassMoves(img: Image, b1: U64, b2: U64, defs: seq<Entry>, n: nat)
    requires BothLoad(img, b1, b2, defs) && n <= |img.headers|
    ensures var one, two := AfterSymbols(img, b1, defs), AfterSymbols(img, b2, defs);
            && |one.headers| == |one.reltabs| == |one.symtabs| == |img.headers| == |two.headers| == |two.reltabs| == |two.symtabs|
            && AllMoved(AllPatchItems(one, n), AllPatchItems(two, n), b2 - b1)
    decreases n
  {
    hide AfterSymbols, PatchItems, BothLoad, Moved;
    if n > 0 {
      PassMoves(img, b1, b2, defs, n - 1);
      SectionMoves(img, b1, b2, defs, n - 1);
    } else {
      NothingMoves(img, b1, b2, defs);
    }
  }

  lemma NothingMoves(img: Image, b1: U64, b2: U64, defs: seq<Entry>)
    requires BothLoad(img, b1, b2, defs)
    ensures var one, two := AfterSymbols(img, b1, defs), AfterSymbols(img, b2, defs);
            |one.headers| == |one.reltabs| == |one.symtabs| == |img.headers| == |two.headers| == |two.reltabs| == |two.symtabs|
  {
    hide AfterSymbols, Loads, SelfContained, NoneNull, Entries;
    SameShape(img, b1, defs);
    SameShape(img, b2, defs);
    SameHeaders(img, b1, defs);
    SameHeaders(img, b2, defs);
  }

  lemma SameHeaders(img: Image, base: U64, defs: seq<Entry>)
    requires WellFormed(img)
    ensures |AfterSymbols(img, base, defs).headers| == |img.headers| && AfterSymbols(img, base, defs).reltabs == img.reltabs
  {
  }

  // ----------------------------------------------------------------- memory

  lemma {:induction false} DoneMoves(xs: seq<Result<Patch>>, ys: seq<Result<Patch>>, d: int)
    requires AllMoved(xs, ys, d)
    ensures |Done(xs)| == |Done(ys)| && Failure(xs) == Failure(ys)
    ensures forall j :: 0 <= j < |Done(xs)| ==> Done(ys)[j] == Patch(Move(Done(xs)[j].addr, d), Done(xs)[j].value)
  {
    if xs != [] {
      assert Moved(xs[0], ys[0], d);
      forall j | 0 <= j < |xs| - 1
        ensures Moved(xs[1..][j], ys[1..][j], d)
      {
        assert Moved(xs[j + 1], ys[j + 1], d);
      }
      DoneMoves(xs[1..], ys[1..], d);
    }
  }

  lemma HitMoves(p: Patch, d: int, x: U64)
    ensures var q := Patch(Move(p.addr, d), p.value);
            && (Hits(p, x) <==> Hits(q, Move(x, d)))
            && (Hits(p, x) ==> PatchByte(q, Move(x, d)) == PatchByte(p, x))
  {
    assert (Move(x, d) - Move(p.addr, d) - (x - p.addr)) % 0x1_0000_0000_0000_0000 == 0 by {
      assert (Move(x, d) - (x + d)) % 0x1_0000_0000_0000_0000 == 0;
      assert (Move(p.addr, d) - (p.addr + d)) % 0x1_0000_0000_0000_0000 == 0;
    }
  }

  lemma {:induction false} LastHitMoves(was: Cell, ps: seq<Patch>, qs: seq<Patch>, d: int, x: U64)
    requires |ps| == |qs| && forall j :: 0 <= j < |ps| ==> qs[j] == Patch(Move(ps[j].addr, d), ps[j].value)
    ensures LastHit(was, qs, Move(x, d)) == LastHit(was, ps, x)
  {
    hide Hits, PatchByte, Move;
    if ps != [] {
      HitMoves(ps[|ps| - 1], d, x);
      LastHitMoves(was, ps[..|ps| - 1], qs[..|qs| - 1], d, x);
    }
  }

  /** Two complete loads of a self-contained image, neither with a null symbol
    * address, stop with the same error if any; and if memory agreed at two
    * corresponding places before the relocations, it does afterwards: the bytes
    * written do not depend on the load address. */
  lemma LoadsAgree(img: Image, b1: U64, b2: U64, defs: seq<Entry>, m1: Bytes, m2: Bytes, x: U64)
    requires BothLoad(img, b1, b2, defs) && Look(m2, Move(x, b2 - b1)) == Look(m1, x)
    ensures var one, two := AfterSymbols(img, b1, defs), AfterSymbols(img, b2, defs);
            && |one.headers| == |one.reltabs| == |one.symtabs| == |img.headers| == |two.headers| == |two.reltabs| == |two.symtabs|
            && var xs, ys := AllPatchItems(one, |img.headers|), AllPatchItems(two, |img.headers|);
            && Failure(xs) == Failure(ys)
            && Look(WriteAll(m2, Done(ys)), Move(x, b2 - b1)) == Look(WriteAll(m1, Done(xs)), x)
  {
    hide AfterSymbols, Loads, SelfContained, NoneNull, AllPatchItems, Done, Failure, WriteAll, Look, LastHit, Move;
    PassMoves(img, b1, b2, defs, |img.headers|);
    var xs := AllPatchItems(AfterSymbols(img, b1, defs), |img.headers|);
    var ys := AllPatchItems(AfterSymbols(img, b2, defs), |img.headers|);
    DoneMoves(xs, ys, b2 - b1);
    BytesAfter(m1, Done(xs), x);
    BytesAfter(m2, Done(ys), Move(x, b2 - b1));
    LastHitMoves(Look(m1, x), Done(xs), Done(ys), b2 - b1, x);
  }
}
