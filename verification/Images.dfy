/** A relocatable ELF64 image, and what each pass of the loader makes of it as a
  * list of results, one per table entry in traversal order
  * (include/loader/elf64.h, src/loader/loader.c). */
module Images {
  import opened Tables
  import opened Widths
  import opened Patching
  import opened Symbols

  // Section types and reserved indices of include/loader/elf.h.
  const PROGBITS: nat := 1
  const SYMTAB: nat := 2
  const STRTAB: nat := 3
  const RELA: nat := 4
  const NOBITS: nat := 8
  const REL: nat := 9
  const UNDEF: nat := 0
  const LORESERVE: nat := 0xff00

  /** struct elf64_shdr. */
  datatype Header = Header(kind: nat, addr: U64, offset: nat, size: nat, link: nat, info: nat, entsize: nat)
  /** struct elf64_sym. */
  datatype Symbol = Symbol(name: nat, shndx: nat, value: U64)
  /** struct elf64_rela; the addend of a `rel` entry is not looked at. */
  datatype Relocation = Relocation(offset: U64, info: U64, addend: int)

  /** The section headers, the symbol and relocation tables by section, and the
    * string that starts at an offset of a section. */
  datatype Image = Image(headers: seq<Header>, symtabs: seq<seq<Symbol>>, reltabs: seq<seq<Relocation>>, text: (nat, nat) -> string)

  /** The tables have the entries their headers announce. */
  predicate WellFormed(img: Image) {
    && |img.symtabs| == |img.reltabs| == |img.headers|
    && forall i :: 0 <= i < |img.headers| ==>
         && |img.symtabs[i]| == Entries(img.headers[i])
         && |img.reltabs[i]| == Entries(img.headers[i])
  }

  /** The number of entries of a section read as a table. */
  function Entries(h: Header): nat {
    var t := SectionTable(h.offset, h.size, h.entsize);
    if t.Ok? then Count(t.value) else 0
  }

  /** __get_section_header: the index of a section of the given type. */
  function Section(img: Image, id: nat, kind: nat): (r: Result<nat>)
    ensures r.Err? ==> r.error != 0
    ensures r.Ok? ==> r.value == id < |img.headers| && img.headers[id].kind == kind
  {
    if id >= |img.headers| then Err(BAD_TABLE_INDEX)
    else if img.headers[id].kind != kind then Err(BAD_SECTION_TYPE)
    else Ok(id)
  }

  /** __get_section_table, as the index of the section. */
  function TableOf(img: Image, id: nat, kind: nat): (r: Result<nat>)
    ensures r.Err? ==> r.error != 0
    ensures r.Ok? ==> r.value == id < |img.headers| && img.headers[id].kind == kind && img.headers[id].entsize > 0
  {
    match Section(img, id, kind)
    case Err(e) => Err(e)
    case Ok(k) => if img.headers[k].entsize == 0 then Err(NULL_ENTRY_SIZE) else Ok(k)
  }

  // ------------------------------------------------------------ first pass

  function Base(base: U64, offset: int): U64 {
    (base + offset) % 0x1_0000_0000_0000_0000
  }

  predicate NonEmptyNobits(h: Header) {
    h.kind == NOBITS && h.size != 0
  }

  /** The first non-empty section without bits, or the number of sections. */
  function FirstNobits(hs: seq<Header>): (n: nat)
    ensures n <= |hs| && (n < |hs| ==> NonEmptyNobits(hs[n]))
    ensures forall i :: 0 <= i < n ==> !NonEmptyNobits(hs[i])
  {
    if hs == [] || NonEmptyNobits(hs[0]) then 0 else 1 + FirstNobits(hs[1..])
  }

  /** The first `n` sections have their addresses in memory. */
  function Placed(hs: seq<Header>, base: U64, n: nat): seq<Header> {
    seq(|hs|, i requires 0 <= i < |hs| => if i < n then hs[i].(addr := Base(base, hs[i].offset)) else hs[i])
  }

  // ----------------------------------------------------------- second pass

  /** What the pass finds out about one symbol. */
  datatype Definition = Definition(section: nat, index: nat, name: string, value: U64)

  function NameOf(img: Image, strings: nat, sym: Symbol): Result<string>
    requires strings < |img.headers|
  {
    var h := img.headers[strings];
    match GetEntry(Table(h.offset, h.offset + h.size, h.entsize), sym.name)
    case Err(e) => Err(e)
    case Ok(_) => Ok(img.text(strings, sym.name * h.entsize))
  }

  /** update_symbol_address: null for undefined and reserved sections. */
  function AddressOf(img: Image, sym: Symbol): (r: Result<U64>)
    ensures r.Err? ==> r.error != 0
  {
    if sym.shndx == UNDEF || sym.shndx >= LORESERVE then Ok(0)
    else
      match Section(img, sym.shndx, PROGBITS)
      case Err(e) => Err(e)
      case Ok(k) => Ok((sym.value + img.headers[k].addr) % 0x1_0000_0000_0000_0000)
  }

  function ValueOf(img: Image, defs: seq<Entry>, name: string, sym: Symbol): Result<U64> {
    if sym.shndx == UNDEF then Ok(FindDef(defs, name)) else AddressOf(img, sym)
  }

  function SymbolItem(img: Image, defs: seq<Entry>, strings: nat, i: nat, k: nat, sym: Symbol): Result<Definition>
    requires strings < |img.headers|
  {
    match NameOf(img, strings, sym)
    case Err(e) => Err(e)
    case Ok(name) =>
      match ValueOf(img, defs, name, sym)
      case Err(e) => Err(e)
      case Ok(value) => Ok(Definition(i, k, name, value))
  }

  /** The values of other symbols do not matter. */
  lemma ItemIsLocal(img: Image, tabs: seq<seq<Symbol>>, defs: seq<Entry>, strings: nat, i: nat, k: nat, sym: Symbol)
    requires strings < |img.headers|
    ensures SymbolItem(img.(symtabs := tabs), defs, strings, i, k, sym) == SymbolItem(img, defs, strings, i, k, sym)
    ensures i < |img.headers| ==> StringsOf(img.(symtabs := tabs), i) == StringsOf(img, i)
  {
  }

  /** The string table of a symbol table, and the checks before its entries. */
  function StringsOf(img: Image, i: nat): (r: Result<nat>)
    requires i < |img.headers|
    ensures r.Ok? ==> r.value < |img.headers|
    ensures r.Err? ==> r.error != 0
  {
    if img.headers[i].entsize == 0 then Err(NULL_ENTRY_SIZE)
    else TableOf(img, img.headers[i].link % 0x1_0000, STRTAB)
  }

  function TableItems(img: Image, defs: seq<Entry>, i: nat, strings: nat): seq<Result<Definition>>
    requires i < |img.headers| && i < |img.symtabs| && strings < |img.headers|
  {
    seq(|img.symtabs[i]|, k requires 0 <= k < |img.symtabs[i]| => SymbolItem(img, defs, strings, i, k, img.symtabs[i][k]))
  }

  function SymbolItems(img: Image, defs: seq<Entry>, i: nat): seq<Result<Definition>>
    requires i < |img.headers| == |img.symtabs|
  {
    if img.headers[i].kind != SYMTAB then []
    else match StringsOf(img, i)
      case Err(e) => [Err(e)]
      case Ok(strings) => TableItems(img, defs, i, strings)
  }

  /** The results of the pass over the first `n` sections. */
  function AllSymbolItems(img: Image, defs: seq<Entry>, n: nat): seq<Result<Definition>>
    requires n <= |img.headers| == |img.symtabs|
  {
    if n == 0 then [] else AllSymbolItems(img, defs, n - 1) + SymbolItems(img, defs, n - 1)
  }

  /** The tables with the values of the definitions. */
  function Store(tabs: seq<seq<Symbol>>, ds: seq<Definition>): seq<seq<Symbol>> {
    if ds == [] then tabs else StoreOne(Store(tabs, ds[..|ds| - 1]), ds[|ds| - 1])
  }

  function StoreOne(tabs: seq<seq<Symbol>>, d: Definition): seq<seq<Symbol>> {
    StoreValue(tabs, d.section, d.index, d.value)
  }

  function StoreValue(tabs: seq<seq<Symbol>>, i: nat, k: nat, value: U64): (r: seq<seq<Symbol>>)
    ensures |r| == |tabs| && forall j :: 0 <= j < |tabs| ==> |r[j]| == |tabs[j]|
    ensures i < |tabs| && k < |tabs[i]| ==> r[i][k] == tabs[i][k].(value := value)
    ensures forall j, l :: 0 <= j < |tabs| && 0 <= l < |tabs[j]| && (j != i || l != k) ==> r[j][l] == tabs[j][l]
  {
    if i < |tabs| && k < |tabs[i]| then tabs[i := tabs[i][k := tabs[i][k].(value := value)]] else tabs
  }

  /** The queries after one definition: null values answer none. */
  function Ask(qs: seq<Entry>, d: Definition): seq<Entry> {
    if d.value == 0 then qs else Answer(qs, Found(d.name, d.value))
  }

  lemma NextDefinition(tabs: seq<seq<Symbol>>, qs: seq<Entry>, ds: seq<Definition>, d: Definition)
    ensures Store(tabs, ds + [d]) == StoreOne(Store(tabs, ds), d)
    ensures AnswerAll(qs, FoundIn(ds + [d])) == Ask(AnswerAll(qs, FoundIn(ds)), d)
  {
    assert (ds + [d])[..|ds|] == ds;
    var fs := FoundIn(ds);
    if d.value != 0 {
      assert (fs + [Found(d.name, d.value)])[..|fs|] == fs;
    } else {
      assert fs + [] == fs;
    }
  }

  /** One more result after results without error. */
  lemma NextResult(tabs: seq<seq<Symbol>>, qs: seq<Entry>, items: seq<Result<Definition>>, it: Result<Definition>)
    requires Succeeds(items)
    ensures var ds, ds' := Done(items), Done(items + [it]);
            if it.Err? then ds' == ds && Failure(items + [it]) == it.error && !Succeeds(items + [it])
            else
              && Succeeds(items + [it]) && Failure(items + [it]) == 0
              && Store(tabs, ds') == StoreOne(Store(tabs, ds), it.value)
              && AnswerAll(qs, FoundIn(ds')) == Ask(AnswerAll(qs, FoundIn(ds)), it.value)
  {
    DoneNext(items, it);
    if it.Ok? {
      NextDefinition(tabs, qs, Done(items), it.value);
    } else {
      assert (items + [it])[|items|].Err?;
    }
  }

  lemma {:induction false} StoreKeepsShape(tabs: seq<seq<Symbol>>, ds: seq<Definition>)
    ensures |Store(tabs, ds)| == |tabs| && forall i :: 0 <= i < |tabs| ==> |Store(tabs, ds)[i]| == |tabs[i]|
  {
    if ds != [] {
      StoreKeepsShape(tabs, ds[..|ds| - 1]);
    }
  }

  /** The symbols with a non-null value, for the queries. */
  function FoundIn(ds: seq<Definition>): seq<Found> {
    if ds == [] then []
    else
      var d := ds[|ds| - 1];
      FoundIn(ds[..|ds| - 1]) + (if d.value == 0 then [] else [Found(d.name, d.value)])
  }

  // ------------------------------------------------------------ third pass

  /** The symbol table and the target section of a relocation table. */
  function TargetOf(img: Image, i: nat): (r: Result<(nat, nat)>)
    requires i < |img.headers|
    ensures r.Ok? ==> r.value.0 < |img.headers| && r.value.1 < |img.headers|
    ensures r.Err? ==> r.error != 0
  {
    if img.headers[i].entsize == 0 then Err(NULL_ENTRY_SIZE)
    else
      match TableOf(img, img.headers[i].link % 0x1_0000, SYMTAB)
      case Err(e) => Err(e)
      case Ok(symbols) =>
        match Section(img, img.headers[i].info % 0x1_0000, PROGBITS)
        case Err(e) => Err(e)
        case Ok(target) => Ok((symbols, target))
  }

  function RelocationItem(syms: seq<Symbol>, start: U64, withAddend: bool, rel: Relocation): Result<Patch> {
    var p := Base(start, rel.offset);
    var index, kind := rel.info / 0x1_0000_0000, rel.info % 0x1_0000_0000;
    if index == 0 then Err(NULL_SYMBOL_INDEX)
    else if index >= |syms| then Err(BAD_TABLE_INDEX)
    else if syms[index].value == 0 then Err(NULL_SYMBOL_ADDRESS)
    else
      var s, a := syms[index].value, if withAddend then rel.addend else 0;
      if RelocationError(p, s, a, kind) != 0 then Err(RelocationError(p, s, a, kind))
      else Ok(Patch(p, Truncate(W32, RelValue(s, a, p))))
  }

  function TablePatches(img: Image, i: nat, symbols: nat, target: nat): seq<Result<Patch>>
    requires i < |img.headers| && i < |img.reltabs| && symbols < |img.symtabs| && target < |img.headers|
  {
    seq(|img.reltabs[i]|, k requires 0 <= k < |img.reltabs[i]| =>
      RelocationItem(img.symtabs[symbols], img.headers[target].addr, img.headers[i].kind == RELA, img.reltabs[i][k]))
  }

  function PatchItems(img: Image, i: nat): seq<Result<Patch>>
    requires i < |img.headers| == |img.reltabs| == |img.symtabs|
  {
    if img.headers[i].kind != REL && img.headers[i].kind != RELA then []
    else match TargetOf(img, i)
      case Err(e) => [Err(e)]
      case Ok(st) => TablePatches(img, i, st.0, st.1)
  }

  function AllPatchItems(img: Image, n: nat): seq<Result<Patch>>
    requires n <= |img.headers| == |img.reltabs| == |img.symtabs|
  {
    if n == 0 then [] else AllPatchItems(img, n - 1) + PatchItems(img, n - 1)
  }
}
