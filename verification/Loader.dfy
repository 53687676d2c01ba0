/** The three passes of the loader (src/loader/loader.c), each proved to do what
  * its list of results says, up to the first failure. */
module Loader {
  import opened Tables
  import opened Widths
  import opened Patching
  import opened Symbols
  import opened Images
  import opened Readings

  /** struct loading_env and the image it describes. The bytes of the sections
    * are in `mem`; no relocation site overlaps the tables. */
  class Environment {
    const base: U64
    const shtable: Table
    var headers: seq<Header>
    var symtabs: seq<seq<Symbol>>
    const reltabs: seq<seq<Relocation>>
    const text: (nat, nat) -> string
    const mem: Memory

    function Img(): Image
      reads this`headers, this`symtabs
    {
      Image(headers, symtabs, reltabs, text)
    }

    predicate Valid()
      reads this`headers, this`symtabs
    {
      WellFormed(Img()) && Finite(shtable) && Count(shtable) == |headers|
    }

    /** loader_init: `shoff`, `shentsize` and `shnum` are in the ELF header at `base`. */
    constructor (base: U64, shoff: nat, shentsize: nat, shnum: nat, img: Image, mem: Memory)
      requires WellFormed(img) && |img.headers| == if shentsize == 0 then 0 else shnum
      ensures this.base == base && Valid() && Img() == img && this.mem == mem
      ensures shtable == Table(shoff, shoff + shentsize * shnum, shentsize)
    {
      this.base := base;
      shtable := HeaderTable(shoff, shentsize, shnum);
      headers, symtabs, reltabs, text := img.headers, img.symtabs, img.reltabs, img.text;
      this.mem := mem;
      new;
      TablesAreFinite(shoff, shentsize, shnum, 0, 0, 0);
      HeaderCount(shoff, shentsize, shnum);
    }

    /** loader_assign_sections. */
    method AssignSections() returns (err: nat)
      requires Valid()
      modifies this`headers
      ensures Valid()
      ensures var n := FirstNobits(old(headers));
              && headers == Placed(old(headers), base, n)
              && err == if n < |old(headers)| then NON_EMPTY_NOBITS else 0
      ensures SectionsPlaced(old(headers), headers, base, err)
    {
      hide SectionsPlaced, Placed, WellFormed, Count, NonEmptyNobits, Base;
      ghost var hs := headers;
      PassIsPlacing(hs, base);
      var i, entry := 0, shtable.start;
      NothingPlaced(hs, base);
      while entry < shtable.end
        invariant 0 <= i <= |hs| && entry == shtable.start + i * shtable.bsize
        invariant headers == Placed(hs, base, i) && i <= FirstNobits(hs) && Valid()
        decreases |hs| - i
      {
        NextEntryOf(shtable, i);
        PlaceNext(hs, base, i);
        if headers[i].kind == NOBITS && headers[i].size != 0 {
          return NON_EMPTY_NOBITS;
        }
        SameEntries(Img(), headers[i := headers[i].(addr := Base(base, headers[i].offset))]);
        headers := headers[i := headers[i].(addr := Base(base, headers[i].offset))];
        i, entry := i + 1, entry + shtable.bsize;
      }
      EntriesAreCounted(shtable, i);
      return 0;
    }

    // ----------------------------------------------------------- symbols

    /** update_symbol_address. */
    method UpdateAddress(i: nat, k: nat) returns (err: nat)
      requires Valid() && i < |symtabs| && k < |symtabs[i]|
      modifies this`symtabs
      ensures Valid()
      ensures match AddressOf(old(Img()), old(symtabs[i][k]))
              case Err(e) => err == e && symtabs == old(symtabs)
              case Ok(v) => err == 0 && symtabs == StoreValue(old(symtabs), i, k, v)
      ensures var sym := old(symtabs[i][k]);
              if sym.shndx == 0 || sym.shndx >= 0xff00 then err == 0 && symtabs == StoreValue(old(symtabs), i, k, 0)
              else if sym.shndx >= |headers| then err == 2 && symtabs == old(symtabs)
              else if headers[sym.shndx].kind != 1 then err == 3 && symtabs == old(symtabs)
              else err == 0 && symtabs == StoreValue(old(symtabs), i, k, (sym.value + headers[sym.shndx].addr) % 0x1_0000_0000_0000_0000)
    {
      var sym := symtabs[i][k];
      AddressIs(Img(), sym);
      var badIndex := sym.shndx == UNDEF || sym.shndx >= LORESERVE;
      var value := 0;
      if !badIndex {
        var section := Section(Img(), sym.shndx, PROGBITS);
        if section.Err? {
          return section.error;
        }
        value := (sym.value + headers[section.value].addr) % 0x1_0000_0000_0000_0000;
      }
      symtabs := StoreValue(symtabs, i, k, value);
      return 0;
    }

    /** The body of the loop over a symbol table. */
    method AssignSymbol(i: nat, k: nat, strings: nat, defs: seq<Entry>, queries: SymbolList) returns (err: nat)
      requires Valid() && i < |symtabs| && k < |symtabs[i]| && strings < |headers|
      modifies this`symtabs, queries
      ensures Valid()
      ensures |symtabs| == |old(symtabs)| && forall j :: 0 <= j < |symtabs| ==> |symtabs[j]| == |old(symtabs)[j]|
      ensures forall j, l :: 0 <= j < |symtabs| && 0 <= l < |symtabs[j]| && (j != i || l != k) ==> symtabs[j][l] == old(symtabs)[j][l]
      ensures match SymbolItem(old(Img()), defs, strings, i, k, old(symtabs[i][k]))
              case Err(e) => err == e != 0 && symtabs == old(symtabs) && queries.entries == old(queries.entries)
              case Ok(d) => err == 0 && symtabs == StoreOne(old(symtabs), d) && queries.entries == Ask(old(queries.entries), d)
      ensures SymbolDone(old(Img()), defs, strings, i, k, symtabs, old(queries.entries), queries.entries, err)
    {
      hide SymbolDone, Answer, FindDef;
      ghost var img, qs := Img(), queries.entries;
      var sym := symtabs[i][k];
      var name := NameOf(Img(), strings, sym);
      if name.Err? {
        ItemIsDone(img, defs, strings, i, k, symtabs, qs, queries.entries, name.error);
        return name.error;
      }
      if sym.shndx == UNDEF {
        var addr := FindDefinition(defs, name.value);
        symtabs := StoreValue(symtabs, i, k, addr);
      } else {
        err := UpdateAddress(i, k);
        if err != 0 {
          ItemIsDone(img, defs, strings, i, k, symtabs, qs, queries.entries, err);
          return err;
        }
      }
      var value := symtabs[i][k].value;
      if value != 0 {
        queries.Define(Found(name.value, value));
      }
      ItemIsDone(img, defs, strings, i, k, symtabs, qs, queries.entries, 0);
      return 0;
    }

    /** The tables and the queries are as after the results up to the first failure. */
    ghost predicate Reached(img: Image, qs: seq<Entry>, queries: SymbolList, items: seq<Result<Definition>>)
      reads this`symtabs, queries
    {
      symtabs == Store(img.symtabs, Done(items)) && queries.entries == AnswerAll(qs, FoundIn(Done(items)))
    }

    /** One symbol, after the results `before`. */
    method NextSymbol(i: nat, k: nat, strings: nat, defs: seq<Entry>, queries: SymbolList,
                      ghost img: Image, ghost qs: seq<Entry>, ghost before: seq<Result<Definition>>)
      returns (err: nat)
      requires Valid() && i < |symtabs| == |img.symtabs| && k < |symtabs[i]| == |img.symtabs[i]| && strings < |headers|
      requires img == Img().(symtabs := img.symtabs) && symtabs[i][k] == img.symtabs[i][k]
      requires Succeeds(before) && Reached(img, qs, queries, before)
      modifies this`symtabs, queries
      ensures Valid()
      ensures var after := before + [SymbolItem(img, defs, strings, i, k, img.symtabs[i][k])];
              Reached(img, qs, queries, after) && err == Failure(after) && (err == 0 <==> Succeeds(after))
      ensures |symtabs| == |old(symtabs)| && forall j :: 0 <= j < |symtabs| ==> |symtabs[j]| == |old(symtabs)[j]|
      ensures forall j, l :: 0 <= j < |symtabs| && 0 <= l < |symtabs[j]| && (j != i || l != k) ==> symtabs[j][l] == old(symtabs)[j][l]
    {
      hide Store, FoundIn, AnswerAll, Answer, SymbolItem, Done, Failure, Ask, StoreOne, StoreValue, WellFormed, Entries;
      ItemIsLocal(img, symtabs, defs, strings, i, k, symtabs[i][k]);
      NextResult(img.symtabs, qs, before, SymbolItem(img, defs, strings, i, k, img.symtabs[i][k]));
      err := AssignSymbol(i, k, strings, defs, queries);
    }

    /** assing_symbol_table, after sections with the results `before`. */
    method AssignSymbolTable(i: nat, defs: seq<Entry>, queries: SymbolList,
                             ghost img: Image, ghost qs: seq<Entry>, ghost before: seq<Result<Definition>>)
      returns (err: nat)
      requires Valid() && i < |headers| && headers[i].kind == SYMTAB
      requires WellFormed(img) && img == Img().(symtabs := img.symtabs) && symtabs[i] == img.symtabs[i]
      requires Succeeds(before) && Reached(img, qs, queries, before)
      modifies this`symtabs, queries
      ensures Valid()
      ensures var after := before + SymbolItems(img, defs, i);
              Reached(img, qs, queries, after) && err == Failure(after) && (err == 0 <==> Succeeds(after))
      ensures |symtabs| == |old(symtabs)| && forall j :: 0 <= j < |symtabs| && j != i ==> symtabs[j] == old(symtabs)[j]
    {
      hide Reached, SymbolItem, Done, Failure;
      var found := StringsOf(Img(), i);
      ItemIsLocal(img, symtabs, defs, 0, i, 0, Symbol(0, 0, 0));
      if found.Err? {
        SetupFails(img, qs, queries, before, found.error);
        return found.error;
      }
      var strings := found.value;
      ghost var items := TableItems(img, defs, i, strings);
      assert before + items[..0] == before;
      NoFailure(before);
      var k, entry := 0, headers[i].offset;
      while entry < headers[i].offset + headers[i].size
        invariant 0 <= k <= |items| && entry == headers[i].offset + k * headers[i].entsize && Valid()
        invariant |symtabs| == |img.symtabs| && |symtabs[i]| == |items|
        invariant Succeeds(before + items[..k]) && Reached(img, qs, queries, before + items[..k])
        invariant forall l :: k <= l < |items| ==> symtabs[i][l] == img.symtabs[i][l]
        invariant forall j :: 0 <= j < |symtabs| && j != i ==> symtabs[j] == old(symtabs)[j]
        decreases |items| - k
      {
        TableEnd(headers[i], k);
        assert (before + items[..k]) + [items[k]] == before + items[..k + 1];
        err := NextSymbol(i, k, strings, defs, queries, img, qs, before + items[..k]);
        if err != 0 {
          StopsHere(img, qs, queries, before + items[..k + 1], items[k + 1..]);
          assert (before + items[..k + 1]) + items[k + 1..] == before + items;
          return err;
        }
        k, entry := k + 1, entry + headers[i].entsize;
      }
      TableEnd(headers[i], k);
      assert items[..k] == items;
      NoFailure(before + items);
      return 0;
    }

    /** loader_assign_symbols; `try` gives back the first error thrown. */
    method AssignSymbols(defs: seq<Entry>, queries: SymbolList) returns (err: nat)
      requires Valid()
      modifies this`symtabs, queries
      ensures Valid()
      ensures var items := AllSymbolItems(old(Img()), defs, |headers|);
              && symtabs == Store(old(symtabs), Done(items))
              && queries.entries == AnswerAll(old(queries.entries), FoundIn(Done(items)))
              && err == Failure(items) && (err == 0 <==> Succeeds(items))
    {
      hide SymbolItem, SymbolItems, Store, FoundIn, AnswerAll, Done, Failure;
      ghost var img, qs := Img(), queries.entries;
      NothingYet(img, qs, defs);
      var i, entry := 0, shtable.start;
      assert 0 * shtable.bsize == 0;
      while entry < shtable.end
        invariant 0 <= i <= |headers| && entry == shtable.start + i * shtable.bsize && Valid()
        invariant headers == img.headers && |symtabs| == |img.symtabs|
        invariant Succeeds(AllSymbolItems(img, defs, i)) && Reached(img, qs, queries, AllSymbolItems(img, defs, i))
        invariant forall j :: i <= j < |symtabs| ==> symtabs[j] == img.symtabs[j]
        decreases |headers| - i
      {
        EntriesAreCounted(shtable, i);
        assert (i + 1) * shtable.bsize == i * shtable.bsize + shtable.bsize;
        SkipsOthers(img, defs, i);
        if headers[i].kind == SYMTAB {
          err := AssignSymbolTable(i, defs, queries, img, qs, AllSymbolItems(img, defs, i));
          if err != 0 {
            StopsAt(img, qs, queries, defs, i + 1, |headers|);
            return err;
          }
        }
        i, entry := i + 1, entry + shtable.bsize;
      }
      EntriesAreCounted(shtable, i);
      NoFailure(AllSymbolItems(img, defs, |headers|));
      return 0;
    }

    lemma {:induction false} StopsAt(img: Image, qs: seq<Entry>, queries: SymbolList, defs: seq<Entry>, i: nat, n: nat)
      requires i <= n <= |img.headers| == |img.symtabs|
      requires !Succeeds(AllSymbolItems(img, defs, i)) && Reached(img, qs, queries, AllSymbolItems(img, defs, i))
      ensures Reached(img, qs, queries, AllSymbolItems(img, defs, n))
      ensures Failure(AllSymbolItems(img, defs, n)) == Failure(AllSymbolItems(img, defs, i)) && !Succeeds(AllSymbolItems(img, defs, n))
      decreases n
    {
      hide Reached, SymbolItems, Succeeds, Failure, Done;
      if i < n {
        StopsAt(img, qs, queries, defs, i, n - 1);
        StopsHere(img, qs, queries, AllSymbolItems(img, defs, n - 1), SymbolItems(img, defs, n - 1));
      }
    }

    lemma SetupFails(img: Image, qs: seq<Entry>, queries: SymbolList, before: seq<Result<Definition>>, error: nat)
      requires Succeeds(before) && Reached(img, qs, queries, before)
      ensures var after := before + [Err(error)]; Reached(img, qs, queries, after) && Failure(after) == error && !Succeeds(after)
    {
      hide Done, Failure, Store, FoundIn, AnswerAll;
      NextResult(img.symtabs, qs, before, Err(error));
    }

    lemma StopsHere(img: Image, qs: seq<Entry>, queries: SymbolList, items: seq<Result<Definition>>, more: seq<Result<Definition>>)
      requires !Succeeds(items) && Reached(img, qs, queries, items)
      ensures Reached(img, qs, queries, items + more) && Failure(items + more) == Failure(items) && !Succeeds(items + more)
    {
      hide Done, Failure, Store, FoundIn, AnswerAll;
      DoneStops(items, more);
      var i :| 0 <= i < |items| && !items[i].Ok?;
      assert !(items + more)[i].Ok?;
    }

    // -------------------------------------------------------- relocations

    /** The bytes are as after the results up to the first failure. */
    ghost predicate Patched(m: Bytes, items: seq<Result<Patch>>)
      reads mem
    {
      mem.bytes == WriteAll(m, Done(items))
    }

    /** The body of the loop over a relocation table. */
    method ApplyEntry(rel: Relocation, symbols: nat, start: U64, withAddend: bool) returns (err: nat)
      requires symbols < |symtabs|
      modifies mem
      ensures match RelocationItem(symtabs[symbols], start, withAddend, rel)
              case Err(e) => err == e != 0 && mem.bytes == old(mem.bytes)
              case Ok(p) => err == 0 && mem.bytes == WritePatch(old(mem.bytes), p)
      ensures var syms, a := symtabs[symbols], if withAddend then rel.addend else 0;
              var p, index := (start + rel.offset) % 0x1_0000_0000_0000_0000, rel.info / 0x1_0000_0000;
              && err == EntryError(syms, p, a, rel.info)
              && (err == 0 ==> mem.bytes == Write(old(mem.bytes), p, 4, (syms[index].value + a - p) % 0x1_0000_0000))
    {
      var p := Base(start, rel.offset);
      var index, kind := rel.info / 0x1_0000_0000, rel.info % 0x1_0000_0000;
      if index == 0 {
        return NULL_SYMBOL_INDEX;
      }
      if index >= |symtabs[symbols]| {
        return BAD_TABLE_INDEX;
      }
      var s := symtabs[symbols][index].value;
      if s == 0 {
        return NULL_SYMBOL_ADDRESS;
      }
      var addend := if withAddend then rel.addend else 0;
      err := mem.ApplyRelocation(p, s, addend, kind);
    }

    /** One entry, after the results `before`. */
    method NextEntry(rel: Relocation, symbols: nat, start: U64, withAddend: bool, ghost m: Bytes, ghost before: seq<Result<Patch>>)
      returns (err: nat)
      requires symbols < |symtabs| && Succeeds(before) && Patched(m, before)
      modifies mem
      ensures var after := before + [RelocationItem(symtabs[symbols], start, withAddend, rel)];
              Patched(m, after) && err == Failure(after) && (err == 0 <==> Succeeds(after))
    {
      hide RelocationItem, WritePatch, WriteAll, Done, Failure;
      NextPatch(m, before, RelocationItem(symtabs[symbols], start, withAddend, rel));
      err := ApplyEntry(rel, symbols, start, withAddend);
    }

    /** apply_reloaction_table, after sections with the results `before`. */
    method ApplyTable(i: nat, ghost m: Bytes, ghost before: seq<Result<Patch>>) returns (err: nat)
      requires Valid() && i < |headers| && (headers[i].kind == REL || headers[i].kind == RELA)
      requires Succeeds(before) && Patched(m, before)
      modifies mem
      ensures var after := before + PatchItems(Img(), i);
              Patched(m, after) && err == Failure(after) && (err == 0 <==> Succeeds(after))
    {
      hide Patched, RelocationItem, Done, Failure;
      var withAddend := headers[i].kind == RELA;
      var found := TargetOf(Img(), i);
      if found.Err? {
        NoPatch(m, before, found.error);
        return found.error;
      }
      var symbols, target := found.value.0, found.value.1;
      var start := headers[target].addr;
      ghost var items := TablePatches(Img(), i, symbols, target);
      assert before + items[..0] == before;
      NoFailure(before);
      var k, entry := 0, headers[i].offset;
      while entry < headers[i].offset + headers[i].size
        invariant 0 <= k <= |items| && entry == headers[i].offset + k * headers[i].entsize
        invariant Succeeds(before + items[..k]) && Patched(m, before + items[..k])
        decreases |items| - k
      {
        TableEnd(headers[i], k);
        assert (before + items[..k]) + [items[k]] == before + items[..k + 1];
        err := NextEntry(reltabs[i][k], symbols, start, withAddend, m, before + items[..k]);
        if err != 0 {
          PatchingStops(m, before + items[..k + 1], items[k + 1..]);
          assert (before + items[..k + 1]) + items[k + 1..] == before + items;
          return err;
        }
        k, entry := k + 1, entry + headers[i].entsize;
      }
      TableEnd(headers[i], k);
      assert items[..k] == items;
      NoFailure(before + items);
      return 0;
    }

    /** rmld_apply_relocations: `caught` is the error the pass stopped with, which
      * the function does not return. */
    method ApplyRelocations() returns (result: nat, caught: nat)
      requires Valid()
      modifies mem
      ensures result == 0
      ensures var items := AllPatchItems(Img(), |headers|);
              mem.bytes == WriteAll(old(mem.bytes), Done(items)) && caught == Failure(items) && (caught == 0 <==> Succeeds(items))
    {
      hide PatchItems, Done, Failure;
      ghost var m := mem.bytes;
      assert Patched(m, AllPatchItems(Img(), 0)) by { NoPatches(m); }
      var i, entry := 0, shtable.start;
      assert 0 * shtable.bsize == 0;
      while entry < shtable.end
        invariant 0 <= i <= |headers| && entry == shtable.start + i * shtable.bsize
        invariant Succeeds(AllPatchItems(Img(), i)) && Patched(m, AllPatchItems(Img(), i))
        decreases |headers| - i
      {
        EntriesAreCounted(shtable, i);
        assert (i + 1) * shtable.bsize == i * shtable.bsize + shtable.bsize;
        PatchesSection(Img(), i);
        var kind := headers[i].kind;
        if kind == REL || kind == RELA {
          caught := ApplyTable(i, m, AllPatchItems(Img(), i));
          if caught != 0 {
            PatchingStopsAt(m, Img(), i + 1, |headers|);
            return 0, caught;
          }
        }
        i, entry := i + 1, entry + shtable.bsize;
      }
      EntriesAreCounted(shtable, i);
      NoFailure(AllPatchItems(Img(), |headers|));
      return 0, 0;
    }

    lemma NoPatch(m: Bytes, before: seq<Result<Patch>>, error: nat)
      requires Succeeds(before) && Patched(m, before)
      ensures var after := before + [Err(error)]; Patched(m, after) && Failure(after) == error && !Succeeds(after)
    {
      hide Done, Failure, WriteAll;
      NextPatch(m, before, Err(error));
    }

    lemma PatchingStops(m: Bytes, items: seq<Result<Patch>>, more: seq<Result<Patch>>)
      requires !Succeeds(items) && Patched(m, items)
      ensures Patched(m, items + more) && Failure(items + more) == Failure(items) && !Succeeds(items + more)
    {
      hide Done, Failure, WriteAll;
      DoneStops(items, more);
      var i :| 0 <= i < |items| && !items[i].Ok?;
      assert !(items + more)[i].Ok?;
    }

    lemma {:induction false} PatchingStopsAt(m: Bytes, img: Image, i: nat, n: nat)
      requires i <= n <= |img.headers| == |img.symtabs| == |img.reltabs|
      requires !Succeeds(AllPatchItems(img, i)) && Patched(m, AllPatchItems(img, i))
      ensures Patched(m, AllPatchItems(img, n)) && !Succeeds(AllPatchItems(img, n))
      ensures Failure(AllPatchItems(img, n)) == Failure(AllPatchItems(img, i))
      decreases n
    {
      hide Patched, PatchItems, Succeeds, Failure, Done;
      if i < n {
        PatchingStopsAt(m, img, i, n - 1);
        PatchingStops(m, AllPatchItems(img, n - 1), PatchItems(img, n - 1));
      }
    }
  }

  lemma NothingYet(img: Image, qs: seq<Entry>, defs: seq<Entry>)
    requires WellFormed(img)
    ensures AllSymbolItems(img, defs, 0) == [] && Store(img.symtabs, Done([])) == img.symtabs && AnswerAll(qs, FoundIn(Done([]))) == qs
  {
  }

  lemma SkipsOthers(img: Image, defs: seq<Entry>, i: nat)
    requires i < |img.headers| == |img.symtabs|
    ensures AllSymbolItems(img, defs, i + 1) == AllSymbolItems(img, defs, i) + SymbolItems(img, defs, i)
    ensures img.headers[i].kind != SYMTAB ==> AllSymbolItems(img, defs, i + 1) == AllSymbolItems(img, defs, i)
  {
    hide StringsOf, TableItems;
  }

  lemma NextPatch(m: Bytes, items: seq<Result<Patch>>, it: Result<Patch>)
    requires Succeeds(items)
    ensures if it.Err? then Done(items + [it]) == Done(items) && Failure(items + [it]) == it.error && !Succeeds(items + [it])
            else
              && Succeeds(items + [it]) && Failure(items + [it]) == 0
              && WriteAll(m, Done(items + [it])) == WritePatch(WriteAll(m, Done(items)), it.value)
  {
    DoneNext(items, it);
    if it.Ok? {
      WriteNext(m, Done(items), it.value);
    } else {
      assert (items + [it])[|items|].Err?;
    }
  }

  lemma NoPatches(m: Bytes)
    ensures WriteAll(m, Done([])) == m
  {
  }

  lemma PatchesSection(img: Image, i: nat)
    requires i < |img.headers| == |img.symtabs| == |img.reltabs|
    ensures AllPatchItems(img, i + 1) == AllPatchItems(img, i) + PatchItems(img, i)
    ensures img.headers[i].kind != REL && img.headers[i].kind != RELA ==> AllPatchItems(img, i + 1) == AllPatchItems(img, i)
  {
    hide TargetOf, TablePatches;
  }

  lemma NextEntryOf(t: Table, i: nat)
    requires Finite(t)
    ensures t.start + i * t.bsize < t.end <==> i < Count(t)
    ensures t.start + (i + 1) * t.bsize == t.start + i * t.bsize + t.bsize
  {
    EntriesAreCounted(t, i);
  }

  lemma NothingPlaced(hs: seq<Header>, base: U64)
    ensures Placed(hs, base, 0) == hs
  {
  }

  /** Placing the next section, unless it is the first that fails the pass. */
  lemma PlaceNext(hs: seq<Header>, base: U64, i: nat)
    requires i < |hs| && i <= FirstNobits(hs)
    ensures |Placed(hs, base, i)| == |hs| && Placed(hs, base, i)[i] == hs[i]
    ensures Placed(hs, base, i + 1) == Placed(hs, base, i)[i := hs[i].(addr := Base(base, hs[i].offset))]
    ensures i == FirstNobits(hs) <==> hs[i].kind == NOBITS && hs[i].size != 0
  {
  }

  /** Addresses do not change the number of entries of a section. */
  lemma SameEntries(img: Image, hs: seq<Header>)
    requires WellFormed(img) && |hs| == |img.headers|
    requires forall i :: 0 <= i < |hs| ==> hs[i] == img.headers[i].(addr := hs[i].addr)
    ensures WellFormed(img.(headers := hs))
  {
  }

  lemma TableEnd(h: Header, k: nat)
    requires h.entsize > 0
    ensures h.offset + k * h.entsize < h.offset + h.size <==> k < Entries(h)
    ensures h.offset + (k + 1) * h.entsize == h.offset + k * h.entsize + h.entsize
  {
    EntriesAreCounted(Table(h.offset, h.offset + h.size, h.entsize), k);
  }
}
