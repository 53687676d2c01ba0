/** The results of single table entries, read off the fields of the image with
  * the numbers of the headers (include/loader/elf.h, include/loader/loader.h). */
module Readings {
  import opened Tables
  import opened Widths
  import opened Patching
  import opened Symbols
  import opened Images

  // ---------------------------------------------------------------- sections

  lemma SectionIs(img: Image, id: nat, kind: nat, k: nat)
    ensures Section(img, id, kind) == Ok(k) <==> k == id < |img.headers| && img.headers[id].kind == kind
    ensures Section(img, id, kind) == Err(2) <==> id >= |img.headers|
    ensures Section(img, id, kind) == Err(3) <==> id < |img.headers| && img.headers[id].kind != kind
  {
  }

  /** Why a section cannot be used as a table of the type, 0 if it can. */
  function TableError(img: Image, id: nat, kind: nat): nat {
    if id >= |img.headers| then 2
    else if img.headers[id].kind != kind then 3
    else if img.headers[id].entsize == 0 then 4
    else 0
  }

  lemma TableIs(img: Image, id: nat, kind: nat)
    ensures TableOf(img, id, kind) == if TableError(img, id, kind) == 0 then Ok(id) else Err(TableError(img, id, kind))
  {
  }

  /** A symbol table can be used if and only if its entry size is not null and its
    * link names a string table whose entry size is not null. */
  lemma StringsIs(img: Image, i: nat, st: nat)
    requires i < |img.headers|
    ensures var link, n := img.headers[i].link % 0x1_0000, |img.headers|;
            && (StringsOf(img, i) == Ok(st) <==>
                  img.headers[i].entsize > 0 && st == link < n && img.headers[link].kind == 3 && img.headers[link].entsize > 0)
            && (img.headers[i].entsize == 0 ==> StringsOf(img, i) == Err(4))
            && (img.headers[i].entsize > 0 && TableError(img, link, 3) != 0 ==> StringsOf(img, i) == Err(TableError(img, link, 3)))
  {
  }

  /** A relocation table can be used if and only if its entry size is not null, its
    * link names a symbol table whose entry size is not null, and its info names a
    * section of program data; otherwise the error is that of the first failing check. */
  lemma TargetIs(img: Image, i: nat, l: nat, t: nat)
    requires i < |img.headers|
    ensures var link, info, n := img.headers[i].link % 0x1_0000, img.headers[i].info % 0x1_0000, |img.headers|;
            && (TargetOf(img, i) == Ok((l, t)) <==>
                  && img.headers[i].entsize > 0
                  && l == link < n && img.headers[link].kind == 2 && img.headers[link].entsize > 0
                  && t == info < n && img.headers[info].kind == 1)
            && (img.headers[i].entsize == 0 ==> TargetOf(img, i) == Err(4))
            && (img.headers[i].entsize > 0 && TableError(img, link, 2) != 0 ==> TargetOf(img, i) == Err(TableError(img, link, 2)))
            && (img.headers[i].entsize > 0 && TableError(img, link, 2) == 0 && info >= n ==> TargetOf(img, i) == Err(2))
            && (img.headers[i].entsize > 0 && TableError(img, link, 2) == 0 && info < n && img.headers[info].kind != 1 ==> TargetOf(img, i) == Err(3))
  {
  }

  /** Entry `k` of a section exists if and only if the entry size is not null and
    * the entry starts before the end of the section. */
  lemma EntryExists(h: Header, k: nat)
    ensures k < Entries(h) <==> h.entsize > 0 && k * h.entsize < h.size
  {
    if h.entsize > 0 {
      EntriesAreCounted(Table(h.offset, h.offset + h.size, h.entsize), k);
    }
  }

  // -------------------------------------------------------------- first pass

  /** Section `n` is the first without bits that is not empty. */
  ghost predicate FirstOffence(hs: seq<Header>, n: nat) {
    && n < |hs| && hs[n].kind == 8 && hs[n].size != 0
    && forall i :: 0 <= i < n && hs[i].kind == 8 ==> hs[i].size == 0
  }

  lemma FirstNobitsIs(hs: seq<Header>)
    ensures FirstNobits(hs) <= |hs|
    ensures FirstNobits(hs) == |hs| <==> forall i :: 0 <= i < |hs| && hs[i].kind == 8 ==> hs[i].size == 0
    ensures forall n: nat :: FirstOffence(hs, n) <==> n == FirstNobits(hs) < |hs|
  {
    var m := FirstNobits(hs);
    assert forall i :: 0 <= i < m ==> !NonEmptyNobits(hs[i]);
    assert m < |hs| ==> NonEmptyNobits(hs[m]);
    hide FirstNobits;
  }

  /** The first pass: all sections are placed at base plus offset, with result 0, if
    * every section without bits is empty; otherwise exactly those before the
    * first that is not, with result 1. */
  ghost predicate SectionsPlaced(hs: seq<Header>, hs': seq<Header>, base: U64, err: nat) {
    && |hs'| == |hs| && (err == 0 || err == 1)
    && (err == 0 <==> forall i :: 0 <= i < |hs| && hs[i].kind == 8 ==> hs[i].size == 0)
    && (err == 0 ==> forall i :: 0 <= i < |hs| ==> PlacedAt(hs[i], hs'[i], base))
    && (forall n: nat :: FirstOffence(hs, n) ==>
          && (forall i :: 0 <= i < n ==> PlacedAt(hs[i], hs'[i], base))
          && (forall i :: n <= i < |hs| ==> hs'[i] == hs[i]))
  }

  predicate PlacedAt(h: Header, h': Header, base: U64) {
    h' == h.(addr := (base + h.offset) % 0x1_0000_0000_0000_0000)
  }

  lemma PassIsPlacing(hs: seq<Header>, base: U64)
    ensures var n := FirstNobits(hs); SectionsPlaced(hs, Placed(hs, base, n), base, if n < |hs| then 1 else 0)
  {
    hide FirstNobits, NonEmptyNobits, FirstOffence;
    FirstNobitsIs(hs);
    var n := FirstNobits(hs);
    var hs' := Placed(hs, base, n);
    assert |hs'| == |hs| && n <= |hs|;
    assert forall i :: 0 <= i < n ==> PlacedAt(hs[i], hs'[i], base);
    assert forall i :: n <= i < |hs| ==> hs'[i] == hs[i];
  }

  // ------------------------------------------------------------- second pass

  /** The string a symbol is named by, and that its offset lies in the string table. */
  lemma NameIs(img: Image, st: nat, sym: Symbol)
    requires st < |img.headers|
    ensures var h := img.headers[st];
            NameOf(img, st, sym) == if sym.name * h.entsize < h.size then Ok(img.text(st, sym.name * h.entsize)) else Err(2)
  {
  }

  /** The address of a defined symbol: null for reserved indices, otherwise its value
    * and the address of its section, which has to hold program data. */
  lemma AddressIs(img: Image, sym: Symbol)
    ensures sym.shndx == 0 || sym.shndx >= 0xff00 ==> AddressOf(img, sym) == Ok(0)
    ensures 0 < sym.shndx < 0xff00 ==>
              AddressOf(img, sym) ==
              if sym.shndx >= |img.headers| then Err(2)
              else if img.headers[sym.shndx].kind != 1 then Err(3)
              else Ok((sym.value + img.headers[sym.shndx].addr) % 0x1_0000_0000_0000_0000)
  {
  }

  /** The value an undefined symbol gets: that of the first entry that defines its
    * name, null if there is none. */
  ghost predicate ImportedAs(defs: seq<Entry>, name: string, value: U64) {
    && (forall j: nat :: FirstDefining(defs, name, j) ==> value == defs[j].addr)
    && ((forall j :: 0 <= j < |defs| ==> !(defs[j].isDefined && defs[j].name == name)) ==> value == 0)
  }

  lemma ValueIs(img: Image, defs: seq<Entry>, name: string, sym: Symbol)
    ensures sym.shndx == 0 ==> ValueOf(img, defs, name, sym).Ok? && ImportedAs(defs, name, ValueOf(img, defs, name, sym).value)
    ensures sym.shndx != 0 ==> ValueOf(img, defs, name, sym) == AddressOf(img, sym)
  {
  }

  /** The result of a symbol, in the order of the checks. */
  lemma SymbolItemIs(img: Image, defs: seq<Entry>, st: nat, i: nat, k: nat, sym: Symbol)
    requires st < |img.headers|
    ensures var it, h := SymbolItem(img, defs, st, i, k, sym), img.headers[st];
            var name := img.text(st, sym.name * h.entsize);
            if sym.name * h.entsize >= h.size then it == Err(2)
            else if sym.shndx == 0 then it.Ok? && it.value == Definition(i, k, name, it.value.value) && ImportedAs(defs, name, it.value.value)
            else if sym.shndx >= 0xff00 then it == Ok(Definition(i, k, name, 0))
            else if sym.shndx >= |img.headers| then it == Err(2)
            else if img.headers[sym.shndx].kind != 1 then it == Err(3)
            else it == Ok(Definition(i, k, name, (sym.value + img.headers[sym.shndx].addr) % 0x1_0000_0000_0000_0000))
  {
    hide ImportedAs;
    NameIs(img, st, sym);
    AddressIs(img, sym);
    ValueIs(img, defs, img.text(st, sym.name * img.headers[st].entsize), sym);
  }

  /** What the loop body over a symbol table does with symbol `k` of table `i`. */
  ghost predicate SymbolDone(img: Image, defs: seq<Entry>, st: nat, i: nat, k: nat, tabs': seq<seq<Symbol>>,
                             qs: seq<Entry>, qs': seq<Entry>, err: nat)
    requires st < |img.headers| && i < |img.symtabs| && k < |img.symtabs[i]|
  {
    var sym, h := img.symtabs[i][k], img.headers[st];
    var name := img.text(st, sym.name * h.entsize);
    && err == (if sym.name * h.entsize >= h.size then 2
               else if sym.shndx == 0 || sym.shndx >= 0xff00 then 0
               else if sym.shndx >= |img.headers| then 2
               else if img.headers[sym.shndx].kind != 1 then 3
               else 0)
    && if err != 0 then tabs' == img.symtabs && qs' == qs
       else
         && |tabs'| == |img.symtabs| && |tabs'[i]| == |img.symtabs[i]|
         && var value := tabs'[i][k].value;
         && tabs' == StoreValue(img.symtabs, i, k, value)
         && (sym.shndx == 0 ==> ImportedAs(defs, name, value))
         && (0 < sym.shndx < 0xff00 ==> value == (sym.value + img.headers[sym.shndx].addr) % 0x1_0000_0000_0000_0000)
         && (sym.shndx >= 0xff00 ==> value == 0)
         && qs' == if value == 0 then qs else Answer(qs, Found(name, value))
  }

  lemma ItemIsDone(img: Image, defs: seq<Entry>, st: nat, i: nat, k: nat, tabs': seq<seq<Symbol>>, qs: seq<Entry>, qs': seq<Entry>, err: nat)
    requires st < |img.headers| && i < |img.symtabs| && k < |img.symtabs[i]|
    requires var it := SymbolItem(img, defs, st, i, k, img.symtabs[i][k]);
             if it.Err? then err == it.error && tabs' == img.symtabs && qs' == qs
             else err == 0 && tabs' == StoreOne(img.symtabs, it.value) && qs' == Ask(qs, it.value)
    ensures SymbolDone(img, defs, st, i, k, tabs', qs, qs', err)
  {
    hide SymbolItem, ImportedAs, Answer;
    SymbolItemIs(img, defs, st, i, k, img.symtabs[i][k]);
  }

  // -------------------------------------------------------------- third pass

  /** Why an entry fails, 0 if it does not: no symbol, no such symbol, a symbol
    * without address, an unknown type, a value out of range. */
  function EntryError(syms: seq<Symbol>, p: U64, a: int, info: U64): nat {
    var index, kind := info / 0x1_0000_0000, info % 0x1_0000_0000;
    if index == 0 then 5
    else if index >= |syms| then 2
    else if syms[index].value == 0 then 6
    else if kind != 2 && kind != 4 then 7
    else if !InRange((syms[index].value + a - p) % 0x1_0000_0000_0000_0000) then 8
    else 0
  }

  /** The patch of an entry: at the section's address plus the offset, with a value
    * of 32 bits congruent to S + A - P; the addend counts in `rela` tables only. */
  ghost predicate PatchIs(patch: Patch, s: U64, a: int, start: U64, offset: U64) {
    && patch.addr == (start + offset) % 0x1_0000_0000_0000_0000
    && 0 <= patch.value < 0x1_0000_0000
    && (s + a - patch.addr - patch.value) % 0x1_0000_0000 == 0
  }

  lemma RelocationItemIs(syms: seq<Symbol>, start: U64, withAddend: bool, rel: Relocation)
    ensures var it := RelocationItem(syms, start, withAddend, rel);
            var p, a, index := (start + rel.offset) % 0x1_0000_0000_0000_0000, if withAddend then rel.addend else 0, rel.info / 0x1_0000_0000;
            var e := EntryError(syms, p, a, rel.info);
            && (e != 0 ==> it == Err(e))
            && (e == 0 ==> it.Ok? && 0 < index < |syms| && PatchIs(it.value, syms[index].value, a, start, rel.offset))
  {
    hide InRange, Accepts, Truncate;
    var p, a, index := (start + rel.offset) % 0x1_0000_0000_0000_0000, if withAddend then rel.addend else 0, rel.info / 0x1_0000_0000;
    if 0 < index < |syms| {
      var s := syms[index].value;
      AcceptsIs(W32, RelValue(s, a, p));
      StoredIsCongruent(W32, s, a, p);
    }
  }
}
